/**
 What the fleet paths achieve when the runtime and the device pool allow it: reservations, starts,
 restarts, updates, bulk stops, status synchronisation and reconciliation.
 */
module FleetService {
  import opened Common
  import opened Fleet
  import opened FleetSafety

  // ---------------------------------------------------------------------------------------
  // Reservations
  // ---------------------------------------------------------------------------------------

  /** Devices of the pool without a row. */
  function Unheld(pool: seq<Device>, rows: map<Device, Sid>): set<Device> {
    set d | d in pool && d !in rows
  }

  /** `after` is `rows` with exactly the devices of `taken` added for `sid`. */
  predicate Adds(rows: map<Device, Sid>, after: map<Device, Sid>, taken: set<Device>, sid: Sid) {
    && after.Keys == rows.Keys + taken
    && (forall d | d in rows :: after[d] == rows[d])
    && (forall d | d in taken && d !in rows :: after[d] == sid)
  }

  /** The first n entries of the free list are the unheld devices of some front part of the pool. */
  lemma {:induction false} FreeInPoolOrder(pool: seq<Device>, rows: map<Device, Sid>, n: nat) returns (cut: nat)
    requires n <= |Free(pool, rows)|
    ensures cut <= |pool| && (set d | d in Free(pool, rows)[..n]) == Unheld(pool[..cut], rows)
    decreases |pool|
  {
    if n == 0 {
      cut := 0;
      assert Free(pool, rows)[..n] == [] && pool[..cut] == [];
    } else {
      var first, rest := pool[0], Free(pool[1..], rows);
      var c := FreeInPoolOrder(pool[1..], rows, if first in rows then n else n - 1);
      cut := c + 1;
      assert pool[..cut] == [first] + pool[1..][..c];
      assert Unheld(pool[..cut], rows) == Unheld(pool[1..][..c], rows) + if first in rows then {} else {first};
      if first in rows {
        assert Free(pool, rows) == rest;
      } else {
        assert Free(pool, rows)[..n] == [first] + rest[..n - 1];
      }
    }
  }

  lemma UnheldCount(pool: seq<Device>, rows: map<Device, Sid>)
    requires Distinct(pool)
    ensures |Unheld(pool, rows)| == |Free(pool, rows)| && Distinct(Free(pool, rows))
  {
    FreeIsFree(pool, rows);
    DistinctSize(Free(pool, rows));
    assert Unheld(pool, rows) == set d | d in Free(pool, rows);
  }

  /**
   A reservation succeeds exactly when enough devices of the pool have no row; it then gives the
   server that many of them, the first in pool order, and changes no other row.
   */
  lemma ReserveIff(pool: seq<Device>, rows: map<Device, Sid>, sid: Sid, count: nat)
    requires Distinct(pool)
    ensures Allocate(pool, rows, sid, count).Some? <==> |Unheld(pool, rows)| >= count
    ensures Allocate(pool, rows, sid, count).Some? ==>
      exists cut: nat :: cut <= |pool| && |Unheld(pool[..cut], rows)| == count && Adds(rows, Allocate(pool, rows, sid, count).value, Unheld(pool[..cut], rows), sid)
  {
    var free := Free(pool, rows);
    FreeIsFree(pool, rows);
    DistinctSize(free);
    assert Unheld(pool, rows) == set d | d in free;
    if |free| >= count {
      assert Distinct(free[..count]);
      DistinctSize(free[..count]);
      var cut := FreeInPoolOrder(pool, rows, count);
      var after := Allocate(pool, rows, sid, count).value;
      assert Adds(rows, after, Unheld(pool[..cut], rows), sid);
    }
  }

  /** Devices are to be had: none needed, some held already, or enough without a row. */
  predicate Available(st: State, sid: Sid, count: nat) {
    st.pool == [] || count == 0 || (exists d :: d in st.rows && st.rows[d] == sid) || |Unheld(st.pool, st.rows)| >= count
  }

  /** Exactly `count` pool devices were added for the server, or none where it held some or needs none. */
  predicate Supplied(st: State, rows: map<Device, Sid>, sid: Sid, count: nat) {
    var taken := rows.Keys - st.rows.Keys;
    && taken <= Unheld(st.pool, st.rows) && Adds(st.rows, rows, taken, sid)
    && |taken| == (if st.pool == [] || count == 0 || Held(st.rows, sid) != {} then 0 else count)
  }

  /** What a reservation adds to the table is what it took. */
  lemma AddsExactly(rows: map<Device, Sid>, after: map<Device, Sid>, taken: set<Device>, sid: Sid)
    requires Adds(rows, after, taken, sid) && (forall d | d in taken :: d !in rows)
    ensures after.Keys - rows.Keys == taken
  {
  }

  lemma ReservedIsSupplied(st: State, sid: Sid, count: nat)
    requires Distinct(st.pool) && st.pool != [] && count > 0 && Held(st.rows, sid) == {}
    requires |Unheld(st.pool, st.rows)| >= count
    ensures Allocate(st.pool, st.rows, sid, count).Some? && Supplied(st, Allocate(st.pool, st.rows, sid, count).value, sid, count)
  {
    ReserveIff(st.pool, st.rows, sid, count);
    var after := Allocate(st.pool, st.rows, sid, count).value;
    var cut: nat :| cut <= |st.pool| && |Unheld(st.pool[..cut], st.rows)| == count && Adds(st.rows, after, Unheld(st.pool[..cut], st.rows), sid);
    AddsExactly(st.rows, after, Unheld(st.pool[..cut], st.rows), sid);
  }

  lemma NothingNeeded(st: State, sid: Sid, count: nat)
    requires st.pool == [] || count == 0 || Held(st.rows, sid) != {}
    ensures Supplied(st, st.rows, sid, count)
  {
    assert st.rows.Keys - st.rows.Keys == {};
  }

  /** Devices are ensured exactly when they are to be had, and then exactly the missing ones are added. */
  lemma EnsureIff(st: State, sid: Sid, count: nat)
    requires Distinct(st.pool)
    ensures Ensure(st, sid, count).Some? <==> Available(st, sid, count)
    ensures Available(st, sid, count) ==> Supplied(st, Ensure(st, sid, count).value, sid, count)
  {
    if d :| d in st.rows && st.rows[d] == sid {
      assert d in Held(st.rows, sid);
    }
    if st.pool == [] || count == 0 || Held(st.rows, sid) != {} {
      NothingNeeded(st, sid, count);
    } else {
      ReserveIff(st.pool, st.rows, sid, count);
      if |Unheld(st.pool, st.rows)| >= count {
        ReservedIsSupplied(st, sid, count);
      }
    }
  }

  // ---------------------------------------------------------------------------------------
  // Starts
  // ---------------------------------------------------------------------------------------

  /** Running, on record, on its own rows; a server that held none has exactly `count` devices now. */
  predicate Served(st: State, st': State, sid: Sid, count: nat) {
    && Serving(st', sid, count)
    && Supplied(st, st'.rows, sid, count)
    && (st.pool != [] && Held(st.rows, sid) == {} ==> |st'.containers[sid].devices| == count)
  }

  lemma RebuildIsServed(st: State, base: State, sid: Sid)
    requires Distinct(st.pool) && sid in st.servers && sid in base.servers && base.pool == st.pool && base.rows == st.rows
    requires GpuCount(base, base.servers[sid]) == GpuCount(st, st.servers[sid]) && Available(st, sid, GpuCount(st, st.servers[sid]))
    ensures Served(st, Rebuild(base, sid, SpawnOk), sid, GpuCount(st, st.servers[sid]))
  {
    var count := GpuCount(st, st.servers[sid]);
    EnsureIff(base, sid, count);
    RebuildServes(base, sid);
    RebuildRows(base, sid);
    var next := Rebuild(base, sid, SpawnOk);
    if st.pool != [] && Held(st.rows, sid) == {} {
      SuppliedCount(st, next.rows, sid, count);
    }
  }

  lemma RebuildRows(st: State, sid: Sid)
    requires sid in st.servers && Ensure(st, sid, GpuCount(st, st.servers[sid])).Some?
    ensures Rebuild(st, sid, SpawnOk).rows == Ensure(st, sid, GpuCount(st, st.servers[sid])).value && Rebuild(st, sid, SpawnOk).pool == st.pool
  {
  }

  lemma AddsHeld(rows: map<Device, Sid>, after: map<Device, Sid>, taken: set<Device>, sid: Sid)
    requires Adds(rows, after, taken, sid) && (forall d | d in taken :: d !in rows) && (forall d | d in rows :: rows[d] != sid)
    ensures Held(after, sid) == taken
  {
    forall d ensures d in Held(after, sid) <==> d in taken {
      assert d in after.Keys <==> d in rows.Keys || d in taken;
    }
  }

  lemma SuppliedCount(st: State, rows: map<Device, Sid>, sid: Sid, count: nat)
    requires Supplied(st, rows, sid, count) && st.pool != [] && Held(st.rows, sid) == {}
    ensures |Held(rows, sid)| == count
  {
    var taken := rows.Keys - st.rows.Keys;
    forall d | d in st.rows ensures st.rows[d] != sid {
      assert d !in Held(st.rows, sid);
    }
    AddsHeld(st.rows, rows, taken, sid);
  }

  /** Deleting or halting the old container leaves rows, pool and counts alone. */
  lemma SameBase(st: State, sid: Sid, halt: Halt, del: Delete)
    requires sid in st.servers
    ensures var a, b := AfterDelete(st, sid, del), Bare(st, sid, halt, del);
      && sid in a.servers && a.pool == st.pool && a.rows == st.rows && GpuCount(a, a.servers[sid]) == GpuCount(st, st.servers[sid])
      && sid in b.servers && b.pool == st.pool && b.rows == st.rows && GpuCount(b, b.servers[sid]) == GpuCount(st, st.servers[sid])
  {
  }

  /**
   A start with devices to be had and a spawn that works ends in a served server, unless it finds the
   server running, or without a container and without its plan.
   */
  lemma StartServes(st: State, sid: Sid, report: Report, del: Delete)
    requires Distinct(st.pool) && Enabled(st, Start(sid, report, del, SpawnOk)) && Available(st, sid, GpuCount(st, st.servers[sid]))
    ensures var st' := Apply(st, Start(sid, report, del, SpawnOk));
      if (if st.servers[sid].container.Some? then report.IsRunning? else st.servers[sid].plan.None? || st.servers[sid].plan.value !in st.plans)
      then st' == st else Served(st, st', sid, GpuCount(st, st.servers[sid]))
  {
    SameBase(st, sid, Halt(true, true), del);
    RebuildIsServed(st, st, sid);
    RebuildIsServed(st, AfterDelete(st, sid, del), sid);
  }

  /** Without devices nothing comes up: of a start nothing remains but the removal of a stopped container. */
  lemma StartRefused(st: State, sid: Sid, report: Report, del: Delete, spawn: Spawn)
    requires Distinct(st.pool) && Enabled(st, Start(sid, report, del, spawn)) && !Available(st, sid, GpuCount(st, st.servers[sid]))
    ensures var st' := Apply(st, Start(sid, report, del, spawn));
      st' == if st.servers[sid].container.Some? && report.IsStopped? && del.gone then st.(containers := st.containers - {sid}) else st
  {
    var base := AfterDelete(st, sid, del);
    SameBase(st, sid, Halt(true, true), del);
    RebuildRefused(st, sid, spawn);
    RebuildRefused(base, sid, spawn);
  }

  lemma RebuildRefused(st: State, sid: Sid, spawn: Spawn)
    requires Distinct(st.pool) && sid in st.servers && !Available(st, sid, GpuCount(st, st.servers[sid]))
    ensures Rebuild(st, sid, spawn) == st
  {
    EnsureIff(st, sid, GpuCount(st, st.servers[sid]));
  }

  /** An endpoint restart of a GPU server deletes before it looks for devices. */
  lemma RestartRefused(st: State, sid: Sid, report: Report, del: Delete, spawn: Spawn)
    requires Distinct(st.pool) && OnRecord(st, sid) && !Available(st, sid, GpuCount(st, st.servers[sid]))
    requires Enabled(st, Restart(sid, report, del, spawn, Halt(true, true), Launch(true, true)))
    ensures Apply(st, Restart(sid, report, del, spawn, Halt(true, true), Launch(true, true))) ==
      if !report.IsUnknown? && del.gone then st.(containers := st.containers - {sid}) else st
  {
    var base := if report.IsUnknown? then st else AfterDelete(st, sid, del);
    SameBase(st, sid, Halt(true, true), del);
    RebuildRefused(base, sid, spawn);
    assert RestartPath(st, sid, report, del, spawn, Halt(true, true), Launch(true, true)) == Rebuild(base, sid, spawn);
  }

  /** Background starts and restarts look for devices first, and touch nothing when there are none. */
  lemma BackgroundRefused(st: State, sid: Sid, del: Delete, spawn: Spawn, halt: Halt, launch: Launch)
    requires Distinct(st.pool) && sid in st.servers && st.servers[sid].gpus > 0 && !Available(st, sid, GpuCount(st, st.servers[sid]))
    requires halt.reported ==> halt.down
    ensures Apply(st, BulkStart(sid, del, spawn, launch)) == st
    ensures Apply(st, ScheduledRestart(sid, del, spawn, halt, launch)) == st
    ensures st.servers[sid].status.Running? ==> Apply(st, HealthRestart(sid, del, spawn, halt, launch)) == st
  {
    assert st.pool != [];
    assert Respawn(st, sid, del, spawn) == st by {
      EnsureIff(st, sid, GpuCount(st, st.servers[sid]));
    }
  }

  /** A creation records the plan, its GPU count and the new container, or finds too few devices and changes nothing. */
  lemma CreateServes(st: State, sid: Sid, plan: PlanId)
    requires Distinct(st.pool) && Enabled(st, Create(sid, plan, SpawnOk, true))
    ensures var st' := Apply(st, Create(sid, plan, SpawnOk, true));
      if Available(st, sid, st.plans[plan]) then
        && Served(st, st', sid, st.plans[plan])
        && st'.servers[sid] == Record(Some(plan), st.plans[plan], Running, Some(st'.containers[sid].id))
      else st' == st
  {
    var count := st.plans[plan];
    EnsureIff(st, sid, count);
    if Available(st, sid, count) {
      var rows := Ensure(st, sid, count).value;
      CreatedRecord(st, sid, plan);
      var st' := CreatePath(st, sid, plan, SpawnOk, true);
      assert Supplied(st, st'.rows, sid, count);
      if st.pool != [] {
        SuppliedCount(st, rows, sid, count);
      }
    }
  }

  lemma CreatedRecord(st: State, sid: Sid, plan: PlanId)
    requires Enabled(st, Create(sid, plan, SpawnOk, true)) && Ensure(st, sid, st.plans[plan]).Some?
    ensures var st', rows := CreatePath(st, sid, plan, SpawnOk, true), Ensure(st, sid, st.plans[plan]).value;
      && st'.rows == rows && Serving(st', sid, st.plans[plan])
      && st'.containers[sid].devices == Held(rows, sid)
      && st'.servers[sid] == Record(Some(plan), st.plans[plan], Running, Some(st'.containers[sid].id))
  {
  }

  /** The same container, running and marked so; nothing else changed. */
  predicate InPlace(st: State, st': State, sid: Sid) {
    && sid in st.servers && sid in st.containers
    && st' == st.(servers := st.servers[sid := st.servers[sid].(status := Running)],
                  containers := st.containers[sid := st.containers[sid].(up := true)])
  }

  lemma PlainRestartInPlace(st: State, sid: Sid)
    requires OnRecord(st, sid)
    ensures InPlace(st, PlainRestart(st, sid, Halt(true, true), Launch(true, true)), sid)
  {
    var halted := AfterHalt(st, sid, Halt(true, true));
    assert OnRecord(halted, sid);
  }

  /** An endpoint restart recreates a GPU server, or one whose status is unknown, and restarts any other in place. */
  lemma RestartServes(st: State, sid: Sid, report: Report, del: Delete)
    requires Distinct(st.pool) && OnRecord(st, sid) && Available(st, sid, GpuCount(st, st.servers[sid]))
    requires Enabled(st, Restart(sid, report, del, SpawnOk, Halt(true, true), Launch(true, true)))
    ensures var st' := Apply(st, Restart(sid, report, del, SpawnOk, Halt(true, true), Launch(true, true)));
      if report.IsUnknown? || (st.pool != [] && GpuCount(st, st.servers[sid]) > 0) then Served(st, st', sid, GpuCount(st, st.servers[sid]))
      else InPlace(st, st', sid)
  {
    if report.IsUnknown? || (st.pool != [] && GpuCount(st, st.servers[sid]) > 0) {
      SameBase(st, sid, Halt(true, true), del);
      var base := if report.IsUnknown? then st else AfterDelete(st, sid, del);
      RebuildIsServed(st, base, sid);
      assert RestartPath(st, sid, report, del, SpawnOk, Halt(true, true), Launch(true, true)) == Rebuild(base, sid, SpawnOk);
    } else {
      PlainRestartInPlace(st, sid);
    }
  }

  /** Bulk and scheduled starts, scheduled and health restarts: by the recorded GPU count, served or in place. */
  lemma BulkStartServes(st: State, sid: Sid, del: Delete)
    requires Distinct(st.pool) && OnRecord(st, sid) && Available(st, sid, GpuCount(st, st.servers[sid]))
    ensures var st' := Apply(st, BulkStart(sid, del, SpawnOk, Launch(true, true)));
      if st.pool != [] && st.servers[sid].gpus > 0 then Served(st, st', sid, GpuCount(st, st.servers[sid])) else InPlace(st, st', sid)
  {
    BulkStartPath(st, sid, del);
    if st.pool != [] && st.servers[sid].gpus > 0 {
      RespawnServes(st, sid, del);
    }
  }

  /** A scheduled start of a container seen stopped does what a bulk start does; any other does nothing. */
  lemma ScheduledStartLikeBulk(st: State, sid: Sid, report: Report, del: Delete, spawn: Spawn, launch: Launch)
    requires Enabled(st, ScheduledStart(sid, report, del, spawn, launch))
    ensures Apply(st, ScheduledStart(sid, report, del, spawn, launch)) == if report.IsStopped? then Apply(st, BulkStart(sid, del, spawn, launch)) else st
  {
    var path := BackgroundStart(st, sid, del, spawn, launch);
    assert Apply(st, BulkStart(sid, del, spawn, launch)) == path;
    assert Apply(st, ScheduledStart(sid, report, del, spawn, launch)) == if report.IsStopped? then path else st;
  }

  lemma BulkStartPath(st: State, sid: Sid, del: Delete)
    requires OnRecord(st, sid)
    ensures var st' := Apply(st, BulkStart(sid, del, SpawnOk, Launch(true, true)));
      if st.pool != [] && st.servers[sid].gpus > 0 then st' == Respawn(st, sid, del, SpawnOk) else InPlace(st, st', sid)
  {
  }

  lemma RespawnServes(st: State, sid: Sid, del: Delete)
    requires Distinct(st.pool) && sid in st.servers && Available(st, sid, GpuCount(st, st.servers[sid]))
    ensures Served(st, Respawn(st, sid, del, SpawnOk), sid, GpuCount(st, st.servers[sid]))
  {
    SameBase(st, sid, Halt(true, true), del);
    EnsureIff(st, sid, GpuCount(st, st.servers[sid]));
    RebuildIsServed(st, AfterDelete(st, sid, del), sid);
  }

  lemma ScheduledRestartServes(st: State, sid: Sid, del: Delete)
    requires Distinct(st.pool) && OnRecord(st, sid) && Available(st, sid, GpuCount(st, st.servers[sid])) && st.servers[sid].status.Running?
    ensures var st' := Apply(st, ScheduledRestart(sid, del, SpawnOk, Halt(true, true), Launch(true, true)));
      if st.pool != [] && st.servers[sid].gpus > 0 then Served(st, st', sid, GpuCount(st, st.servers[sid])) else InPlace(st, st', sid)
  {
    var st' := Apply(st, ScheduledRestart(sid, del, SpawnOk, Halt(true, true), Launch(true, true)));
    if st.pool != [] && st.servers[sid].gpus > 0 {
      assert st' == Respawn(st, sid, del, SpawnOk);
      RespawnServes(st, sid, del);
    } else {
      assert st' == PlainRestart(st, sid, Halt(true, true), Launch(true, true));
      PlainRestartInPlace(st, sid);
    }
  }

  lemma HaltThenLaunch(st: State, sid: Sid)
    requires OnRecord(st, sid) && st.servers[sid].status.Running?
    ensures InPlace(st, AfterLaunch(AfterHalt(st, sid, Halt(true, true)), sid, Launch(true, true)), sid)
  {
    assert OnRecord(AfterHalt(st, sid, Halt(true, true)), sid);
    assert st.servers[sid := st.servers[sid].(status := Running)] == st.servers;
  }

  lemma HealthRestartServes(st: State, sid: Sid, del: Delete)
    requires Distinct(st.pool) && OnRecord(st, sid) && Available(st, sid, GpuCount(st, st.servers[sid])) && st.servers[sid].status.Running?
    ensures var st' := Apply(st, HealthRestart(sid, del, SpawnOk, Halt(true, true), Launch(true, true)));
      if st.pool != [] && st.servers[sid].gpus > 0 then Served(st, st', sid, GpuCount(st, st.servers[sid])) else InPlace(st, st', sid)
  {
    var st' := HealthRestartPath(st, sid, del, SpawnOk, Halt(true, true), Launch(true, true));
    assert st' == Apply(st, HealthRestart(sid, del, SpawnOk, Halt(true, true), Launch(true, true)));
    if st.pool != [] && st.servers[sid].gpus > 0 {
      assert st' == Respawn(st, sid, del, SpawnOk);
      RespawnServes(st, sid, del);
    } else {
      HaltThenLaunch(st, sid);
    }
  }

  lemma UpdateRebuilds(st: State, sid: Sid, halt: Halt, del: Delete)
    requires sid in st.servers && Honest(del) && (st.servers[sid].container.None? || del.reported)
    ensures Apply(st, Update(sid, halt, del, SpawnOk, true)) == Rebuild(Bare(st, sid, halt, del), sid, SpawnOk)
  {
  }

  /** An update whose delete, if there is anything to delete, and spawn work ends served under the new configuration. */
  lemma UpdateServes(st: State, sid: Sid, halt: Halt, del: Delete)
    requires Distinct(st.pool) && sid in st.servers && Available(st, sid, GpuCount(st, st.servers[sid]))
    requires Honest(del) && (st.servers[sid].container.None? || del.reported)
    ensures Served(st, Apply(st, Update(sid, halt, del, SpawnOk, true)), sid, GpuCount(st, st.servers[sid]))
  {
    SameBase(st, sid, halt, del);
    UpdateRebuilds(st, sid, halt, del);
    RebuildIsServed(st, Bare(st, sid, halt, del), sid);
  }

  // ---------------------------------------------------------------------------------------
  // Failures
  // ---------------------------------------------------------------------------------------

  /** A creation whose spawn fails leaves no record, nothing running and, once released, no row. */
  lemma CreateFailsCleanly(st: State, sid: Sid, plan: PlanId, left: Leftover)
    requires Distinct(st.pool) && Enabled(st, Create(sid, plan, SpawnFailed(left), true))
    ensures var st' := Apply(st, Create(sid, plan, SpawnFailed(left), true));
      st'.servers == st.servers && st'.rows == st.rows && !Up(st', sid)
  {
    var count := st.plans[plan];
    EnsureIff(st, sid, count);
    FailedCreate(st, sid, plan, left);
    if Available(st, sid, count) {
      SuppliedThenReleased(st, Ensure(st, sid, count).value, sid, count);
    }
  }

  lemma FailedCreate(st: State, sid: Sid, plan: PlanId, left: Leftover)
    requires Enabled(st, Create(sid, plan, SpawnFailed(left), true))
    ensures var st', got := Apply(st, Create(sid, plan, SpawnFailed(left), true)), Ensure(st, sid, st.plans[plan]);
      && st'.servers == st.servers && !Up(st', sid)
      && st'.rows == if got.None? then st.rows else got.value - Held(got.value, sid)
  {
  }

  /** For a server that held nothing, releasing undoes what it was supplied with. */
  lemma SuppliedThenReleased(st: State, rows: map<Device, Sid>, sid: Sid, count: nat)
    requires Supplied(st, rows, sid, count) && Held(st.rows, sid) == {}
    ensures rows - Held(rows, sid) == st.rows
  {
    var taken := rows.Keys - st.rows.Keys;
    forall d | d in st.rows ensures st.rows[d] != sid {
      assert d !in Held(st.rows, sid);
    }
    AddsHeld(st.rows, rows, taken, sid);
    assert (rows - taken).Keys == st.rows.Keys;
  }

  /** A start whose spawn fails leaves the record; rows it was given it keeps for the next try. */
  lemma StartFailureKeepsRecord(st: State, sid: Sid, report: Report, del: Delete, left: Leftover)
    requires Distinct(st.pool) && Enabled(st, Start(sid, report, del, SpawnFailed(left)))
    ensures var st' := Apply(st, Start(sid, report, del, SpawnFailed(left)));
      && st'.servers == st.servers
      && (left.Untouched? && st.servers[sid].container.Some? && report.IsStopped? && del.gone ==> st'.containers == st.containers - {sid})
  {
  }

  /** So does a background start, which deletes the old container once devices are found. */
  lemma RespawnFailureKeepsRecord(st: State, sid: Sid, del: Delete, left: Leftover, launch: Launch)
    requires Distinct(st.pool) && OnRecord(st, sid) && st.pool != [] && st.servers[sid].gpus > 0 && Available(st, sid, GpuCount(st, st.servers[sid]))
    ensures var st' := Apply(st, BulkStart(sid, del, SpawnFailed(left), launch));
      && st'.servers == st.servers
      && (left.Untouched? && del.gone ==> st'.containers == st.containers - {sid})
  {
    EnsureIff(st, sid, GpuCount(st, st.servers[sid]));
    var base := AfterDelete(st, sid, del);
    assert Apply(st, BulkStart(sid, del, SpawnFailed(left), launch)) == Rebuild(base, sid, SpawnFailed(left));
  }

  /** A restart in place goes on to the launch only after a reported stop, and to the mark only after a reported launch. */
  lemma RestartInPlaceStepByStep(st: State, sid: Sid, halt: Halt, launch: Launch)
    requires OnRecord(st, sid)
    ensures var st' := PlainRestart(st, sid, halt, launch);
      && (!halt.reported ==> st' == AfterHalt(st, sid, halt))
      && (!halt.reported || !launch.reported ==> st'.servers == st.servers)
      && st'.rows == st.rows
  {
  }

  /** Paths that work on a container do nothing for a server without one. */
  lemma NothingWithoutContainer(st: State, op: Op)
    requires op.Restart? || op.BulkStart? || op.ScheduledStart? || op.ScheduledRestart? || op.HealthRestart?
             || op.BulkStop? || op.SyncStatus? || op.LogoutStop? || op.ScheduledStop?
    requires Enabled(st, op) && st.servers[op.sid].container.None?
    ensures Apply(st, op) == st
  {
  }

  /** A background start in place whose launch is not reported marks nothing. */
  lemma UnreportedLaunchIsNotMarked(st: State, sid: Sid, del: Delete, spawn: Spawn, launch: Launch)
    requires sid in st.servers && !launch.reported && (st.pool == [] || st.servers[sid].gpus == 0)
    ensures Apply(st, BulkStart(sid, del, spawn, launch)).servers == st.servers
  {
  }

  lemma FailedRebuildRecord(st: State, sid: Sid, left: Leftover)
    requires sid in st.servers
    ensures Rebuild(st, sid, SpawnFailed(left)).servers == st.servers
  {
  }

  lemma FailedUpdate(st: State, sid: Sid, halt: Halt, left: Leftover)
    requires sid in st.servers
    requires var bare := Bare(st, sid, halt, Delete(true, true)); sid in bare.servers && Ensure(bare, sid, GpuCount(st, st.servers[sid])).Some?
    ensures var bare := Bare(st, sid, halt, Delete(true, true));
      Apply(st, Update(sid, halt, Delete(true, true), SpawnFailed(left), true)) == Release(MarkStopped(Rebuild(bare, sid, SpawnFailed(left)), sid), sid)
  {
  }

  /** An update whose spawn fails ends recorded stopped, without container and, once released, without rows. */
  lemma UpdateFailsCleanly(st: State, sid: Sid, halt: Halt, left: Leftover)
    requires Distinct(st.pool) && sid in st.servers && Available(st, sid, GpuCount(st, st.servers[sid]))
    ensures var st' := Apply(st, Update(sid, halt, Delete(true, true), SpawnFailed(left), true));
      && sid in st'.servers && st'.servers[sid] == st.servers[sid].(status := Stopped, container := None)
      && Held(st'.rows, sid) == {}
  {
    var bare := Bare(st, sid, halt, Delete(true, true));
    SameBase(st, sid, halt, Delete(true, true));
    assert Ensure(bare, sid, GpuCount(st, st.servers[sid])).Some? by {
      EnsureIff(bare, sid, GpuCount(st, st.servers[sid]));
      assert Available(bare, sid, GpuCount(st, st.servers[sid]));
    }
    FailedUpdate(st, sid, halt, left);
    FailedRebuildRecord(bare, sid, left);
    assert bare.servers[sid].(status := Stopped) == st.servers[sid].(status := Stopped, container := None);
  }

  // ---------------------------------------------------------------------------------------
  // Bulk stops, status and reconciliation
  // ---------------------------------------------------------------------------------------

  /** A bulk stop that is reported marks the record and queues the release; the container stays, down. */
  lemma BulkStopMarks(st: State, op: Op)
    requires op.BulkStop? && Enabled(st, op) && st.servers[op.sid].container.Some?
    ensures var st' := Apply(st, op);
      && st'.rows == st.rows && st'.containers.Keys == st.containers.Keys
      && (if op.halt.reported
          then st'.servers == st.servers[op.sid := st.servers[op.sid].(status := Stopped)] && st'.pending == st.pending + {op.sid}
               && (OnRecord(st, op.sid) ==> !Up(st', op.sid))
          else st'.servers == st.servers && st'.pending == st.pending)
  {
  }

  /** A bulk deletion that is reported drops the record and queues the release; any other keeps both as they were. */
  lemma BulkEraseDrops(st: State, op: Op)
    requires op.BulkErase? && Enabled(st, op)
    ensures var st' := Apply(st, op);
      && st'.rows == st.rows
      && st'.containers == (if OnRecord(st, op.sid) && op.del.gone then st.containers - {op.sid} else st.containers)
      && (if st.servers[op.sid].container.None? || op.del.reported
          then st'.servers == st.servers - {op.sid} && st'.pending == st.pending + {op.sid}
          else st'.servers == st.servers && st'.pending == st.pending)
  {
  }

  /** Listing servers makes the mark tell the truth, and an unknown status changes nothing. */
  lemma SyncTellsTruth(st: State, op: Op)
    requires op.SyncStatus? && Enabled(st, op) && st.servers[op.sid].container.Some?
    ensures var st' := Apply(st, op);
      if op.report.IsUnknown? then st' == st
      else st' == st.(servers := st'.servers) && (st'.servers[op.sid].status.Running? <==> Up(st, op.sid)) && op.sid in st'.servers
           && st'.servers == st.servers[op.sid := st.servers[op.sid].(status := st'.servers[op.sid].status)]
  {
  }

  /** A container that exits on its own is noticed by the next listing; its devices stay reserved. */
  lemma ExitIsNoticed(st: State, sid: Sid)
    requires OnRecord(st, sid)
    ensures var down := Apply(st, ContainerExits(sid)); var noticed := Apply(down, SyncStatus(sid, IsStopped));
      && OnRecord(down, sid) && noticed.rows == st.rows && !Up(noticed, sid)
      && noticed.servers == st.servers[sid := st.servers[sid].(status := Stopped)]
      && noticed.containers[sid].devices == st.containers[sid].devices
  {
  }

  /** Once its plan is gone a server is counted by its record. */
  lemma WithoutPlanByRecord(st: State, plan: PlanId, sid: Sid)
    requires plan in st.plans && sid in st.servers && st.servers[sid].plan == Some(plan)
    ensures var st' := Apply(st, DropPlan(plan)); sid in st'.servers && GpuCount(st', st'.servers[sid]) == st.servers[sid].gpus
  {
  }

  /** Reconciliation keeps exactly the rows that are young or whose server is there, running and recorded with GPUs. */
  lemma ReconcileKeepsExactly(st: State, aged: set<Device>, d: Device)
    requires d in st.rows && st.pool != []
    ensures var st' := Apply(st, Reconcile(aged)); var owner := st.rows[d];
      && (d in st'.rows <==> d !in aged || (owner in st.servers && st.servers[owner].status.Running? && st.servers[owner].gpus > 0))
      && (d in st'.rows ==> st'.rows[d] == owner)
      && st' == st.(rows := st'.rows)
  {
  }
}
