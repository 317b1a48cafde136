/**
 Device exclusivity and stop safety over every run of the fleet.
 */
module FleetSafety {
  import opened Common
  import opened Fleet

  /** No device is in two running containers. */
  ghost predicate Exclusive(st: State) {
    forall a, b | a in st.containers && b in st.containers && a != b && st.containers[a].up && st.containers[b].up ::
      st.containers[a].devices !! st.containers[b].devices
  }

  // ---------------------------------------------------------------------------------------
  // The invariant, server by server
  // ---------------------------------------------------------------------------------------

  predicate Up(st: State, sid: Sid) {
    sid in st.containers && st.containers[sid].up
  }

  predicate HasDevices(st: State, sid: Sid) {
    sid in st.containers && st.containers[sid].devices != {}
  }

  predicate Holds(rows: map<Device, Sid>, sid: Sid, d: Device) {
    d in rows && rows[d] == sid
  }

  /** Every row of the server is still there. */
  ghost predicate Kept(rows: map<Device, Sid>, rows': map<Device, Sid>, sid: Sid) {
    forall d | Holds(rows, sid, d) :: Holds(rows', sid, d)
  }

  /** A running container is the one on record. */
  predicate Tracked(st: State, sid: Sid) {
    Up(st, sid) ==> OnRecord(st, sid)
  }

  /** A running GPU container holds its devices' rows, is marked running and awaits no release. */
  ghost predicate Owned(st: State, sid: Sid) {
    Up(st, sid) && HasDevices(st, sid) ==>
      && sid in st.servers
      && (forall d | d in st.containers[sid].devices :: Holds(st.rows, sid, d))
      && st.servers[sid].status.Running?
      && sid !in st.pending
  }

  /** Baked-in devices are visible to both forms of the recreate guard. */
  predicate Guarded(st: State, sid: Sid) {
    && (HasDevices(st, sid) && sid in st.servers ==> st.servers[sid].gpus > 0)
    && (sid in st.servers ==> (GpuCount(st, st.servers[sid]) > 0 <==> st.servers[sid].gpus > 0))
    && (HasDevices(st, sid) ==> st.pool != [])
  }

  ghost predicate Ok(st: State, sid: Sid) {
    Tracked(st, sid) && Owned(st, sid) && Guarded(st, sid)
  }

  ghost predicate Inv(st: State) {
    forall sid: Sid :: Ok(st, sid)
  }

  lemma InvIsExclusive(st: State)
    requires Inv(st)
    ensures Exclusive(st)
  {
    forall a, b | a in st.containers && b in st.containers && a != b && st.containers[a].up && st.containers[b].up
      ensures st.containers[a].devices !! st.containers[b].devices
    {
      assert Ok(st, a) && Ok(st, b);
    }
  }

  // ---------------------------------------------------------------------------------------
  // What a run is allowed to do
  // ---------------------------------------------------------------------------------------

  /**
   Plan edits that turn a CPU plan into a GPU plan or back, starts that beat a bulk release, and
   deleting a user whose container still runs.
   */
  datatype Policy = Policy(gpuAdded: bool, gpuRemoved: bool, earlyStart: bool, runningUserErased: bool)

  const CAREFUL := Policy(false, false, false, false)

  predicate IsStart(op: Op) {
    op.Start? || op.Restart? || op.ScheduledStart? || op.ScheduledRestart? || op.HealthRestart? || op.BulkStart?
  }

  predicate Allowed(pol: Policy, st: State, op: Op) {
    && (op.EditPlan? && op.plan in st.plans && st.plans[op.plan] == 0 && op.gpuLimit > 0 ==> pol.gpuAdded)
    && (op.EditPlan? && op.plan in st.plans && st.plans[op.plan] > 0 && op.gpuLimit == 0 ==> pol.gpuRemoved)
    && ((IsStart(op) || op.Update?) && op.sid in st.pending ==> pol.earlyStart)
    && (op.UserErased? && Up(st, op.sid) ==> pol.runningUserErased)
  }

  predicate Runs(pol: Policy, st: State, ops: seq<Op>)
    decreases |ops|
  {
    ops == [] || (Enabled(st, ops[0]) && Allowed(pol, st, ops[0]) && Runs(pol, Apply(st, ops[0]), ops[1..]))
  }

  function After(pol: Policy, st: State, ops: seq<Op>): State
    requires Runs(pol, st, ops)
    decreases |ops|
  {
    if ops == [] then st else After(pol, Apply(st, ops[0]), ops[1..])
  }

  // ---------------------------------------------------------------------------------------
  // Every step keeps the invariant
  // ---------------------------------------------------------------------------------------

  lemma AllocateGrants(pool: seq<Device>, rows: map<Device, Sid>, sid: Sid, count: nat)
    requires Allocate(pool, rows, sid, count).Some?
    ensures var rows' := Allocate(pool, rows, sid, count).value;
      forall t: Sid :: Kept(rows, rows', t)
  {
    FreeIsFree(pool, rows);
    var free := Free(pool, rows);
    var rows' := Allocate(pool, rows, sid, count).value;
    assert forall d | d in free[..count] :: d in free;
  }

  lemma EnsureGrants(st: State, sid: Sid, count: nat)
    requires Ensure(st, sid, count).Some?
    ensures var rows' := Ensure(st, sid, count).value;
      forall t: Sid :: Kept(st.rows, rows', t)
  {
    if !(st.pool == [] || count == 0 || Held(st.rows, sid) != {}) {
      AllocateGrants(st.pool, st.rows, sid, count);
    }
  }

  predicate SameRecords(st: State, st': State, t: Sid) {
    && st'.pool == st.pool && st'.plans == st.plans
    && (t in st'.servers <==> t in st.servers) && (t in st.servers ==> st'.servers[t] == st.servers[t])
    && (t in st'.containers <==> t in st.containers) && (t in st.containers ==> st'.containers[t] == st.containers[t])
    && (t in st'.pending <==> t in st.pending)
  }

  /** A step that leaves a server's record and container alone and takes none of its rows. */
  ghost predicate SameFor(st: State, st': State, t: Sid) {
    SameRecords(st, st', t) && Kept(st.rows, st'.rows, t)
  }

  lemma RebuildKeepsRows(st: State, sid: Sid, spawn: Spawn, t: Sid)
    requires sid in st.servers
    ensures Kept(st.rows, Rebuild(st, sid, spawn).rows, t)
  {
    var count := GpuCount(st, st.servers[sid]);
    if Ensure(st, sid, count).Some? {
      EnsureGrants(st, sid, count);
      assert Kept(st.rows, Ensure(st, sid, count).value, t);
    }
  }

  lemma SpawnedKeepsRecords(st: State, rows: map<Device, Sid>, sid: Sid, devices: set<Device>, spawn: Spawn, t: Sid)
    requires sid in st.servers
    ensures var st' := Spawned(st, rows, sid, devices, spawn);
      && (t != sid ==> SameRecords(st, st', t))
      && st'.rows == rows && sid in st'.servers
      && st'.servers[sid].container.Some? == (st.servers[sid].container.Some? || spawn.SpawnOk?)
      && (st.servers[sid].status.Running? ==> st'.servers[sid].status.Running?)
  {
  }

  lemma RebuildKeepsRecords(st: State, sid: Sid, spawn: Spawn, t: Sid)
    requires sid in st.servers && t != sid
    ensures SameRecords(st, Rebuild(st, sid, spawn), t)
  {
    var count := GpuCount(st, st.servers[sid]);
    if Ensure(st, sid, count).Some? {
      var rows := Ensure(st, sid, count).value;
      SpawnedKeepsRecords(st, rows, sid, if st.pool == [] || count == 0 then {} else Held(rows, sid), spawn, t);
    }
  }

  lemma RebuildOthers(st: State, sid: Sid, spawn: Spawn, t: Sid)
    requires sid in st.servers && t != sid
    ensures SameFor(st, Rebuild(st, sid, spawn), t)
  {
    RebuildKeepsRows(st, sid, spawn, t);
    RebuildKeepsRecords(st, sid, spawn, t);
  }

  /** Everything but a reconciliation and a plan edit concerns one server only. */
  predicate IsLocal(op: Op) {
    !op.Reconcile? && !op.EditPlan? && !op.DropPlan?
  }

  lemma SameTransitive(a: State, b: State, c: State, t: Sid)
    requires SameFor(a, b, t) && SameFor(b, c, t)
    ensures SameFor(a, c, t)
  {
  }

  lemma RespawnOthers(st: State, sid: Sid, del: Delete, spawn: Spawn, t: Sid)
    requires sid in st.servers && t != sid
    ensures SameFor(st, Respawn(st, sid, del, spawn), t)
    ensures SameFor(st, Rebuild(AfterDelete(st, sid, del), sid, spawn), t)
  {
    var mid := AfterDelete(st, sid, del);
    assert SameFor(st, mid, t);
    RebuildOthers(mid, sid, spawn, t);
    SameTransitive(st, mid, Rebuild(mid, sid, spawn), t);
  }

  lemma PlainRestartOthers(st: State, sid: Sid, halt: Halt, launch: Launch, t: Sid)
    requires sid in st.servers && t != sid
    ensures SameFor(st, PlainRestart(st, sid, halt, launch), t)
    ensures SameFor(st, AfterLaunch(AfterHalt(st, sid, halt), sid, launch), t)
  {
  }

  lemma EndpointStartLeavesOthers(st: State, op: Op, t: Sid)
    requires Enabled(st, op) && (op.Start? || op.Restart?) && t != op.sid
    ensures SameFor(st, Apply(st, op), t)
  {
    RebuildOthers(st, op.sid, op.spawn, t);
    RespawnOthers(st, op.sid, op.del, op.spawn, t);
    if op.Restart? {
      PlainRestartOthers(st, op.sid, op.halt, op.launch, t);
    }
  }

  lemma BackgroundStartOthers(st: State, sid: Sid, del: Delete, spawn: Spawn, launch: Launch, t: Sid)
    requires sid in st.servers && t != sid
    ensures SameFor(st, BackgroundStart(st, sid, del, spawn, launch), t)
  {
    RespawnOthers(st, sid, del, spawn, t);
  }

  lemma BackgroundStartLeavesOthers(st: State, op: Op, t: Sid)
    requires Enabled(st, op) && IsStart(op) && !op.Start? && !op.Restart? && t != op.sid
    ensures SameFor(st, Apply(st, op), t)
  {
    RespawnOthers(st, op.sid, op.del, op.spawn, t);
    if op.ScheduledStart? || op.BulkStart? {
      BackgroundStartOthers(st, op.sid, op.del, op.spawn, op.launch, t);
    } else {
      PlainRestartOthers(st, op.sid, op.halt, op.launch, t);
    }
  }

  lemma ReleaseOthers(st: State, sid: Sid, t: Sid)
    requires t != sid
    ensures SameFor(st, Release(st, sid), t)
  {
  }

  lemma SpawnOthers(st: State, sid: Sid, devices: set<Device>, spawn: Spawn, t: Sid)
    requires t != sid
    ensures SameFor(st, AfterSpawn(st, sid, devices, spawn), t)
  {
  }

  /** Rows may be added under way; the record of the new server and a failed spawn's release concern it alone. */
  lemma CreateLeavesOthers(st: State, sid: Sid, plan: PlanId, spawn: Spawn, released: bool, t: Sid)
    requires plan in st.plans && t != sid
    ensures SameFor(st, CreatePath(st, sid, plan, spawn, released), t)
  {
    var count := st.plans[plan];
    if Ensure(st, sid, count).Some? {
      var rows := Ensure(st, sid, count).value;
      var granted := st.(rows := rows);
      assert SameFor(st, granted, t) by { EnsureGrants(st, sid, count); }
      var next := AfterSpawn(granted, sid, Held(rows, sid), spawn);
      SpawnOthers(granted, sid, Held(rows, sid), spawn, t);
      SameTransitive(st, granted, next, t);
      if !spawn.SpawnOk? {
        ReleaseOthers(next, sid, t);
        SameTransitive(st, next, GiveBack(next, sid, released), t);
      }
    }
  }

  lemma ClearedOthers(st: State, sid: Sid, del: Delete, released: bool, t: Sid)
    requires sid in st.servers && t != sid
    ensures SameFor(st, AfterDelete(st, sid, del), t)
    ensures SameFor(st, Cleared(st, sid, released), t) && SameFor(st, Erased(st, sid, released), t)
    ensures SameFor(st, Cleared(AfterDelete(st, sid, del), sid, released), t) && SameFor(st, Erased(AfterDelete(st, sid, del), sid, released), t)
  {
  }

  predicate IsStop(op: Op) {
    LooksFirst(op) || op.Erase? || op.BlindStop? || op.ScheduledStop?
  }

  /** Stops that ask for the container's status before they delete it. */
  predicate LooksFirst(op: Op) {
    op.Stop? || op.ObservedStop? || op.LogoutStop?
  }

  lemma LookingStopLeavesOthers(st: State, op: Op, t: Sid)
    requires Enabled(st, op) && LooksFirst(op) && t != op.sid
    ensures SameFor(st, Apply(st, op), t)
  {
    ClearedOthers(st, op.sid, op.del, op.released, t);
  }

  lemma PlainStopLeavesOthers(st: State, op: Op, t: Sid)
    requires Enabled(st, op) && IsStop(op) && !LooksFirst(op) && t != op.sid
    ensures SameFor(st, Apply(st, op), t)
  {
    ClearedOthers(st, op.sid, op.del, op.released, t);
  }

  lemma RestLeavesOthers(st: State, op: Op, t: Sid)
    requires Enabled(st, op) && IsLocal(op) && !IsStart(op) && !IsStop(op) && !op.Create? && !op.Update? && t != op.sid
    ensures SameFor(st, Apply(st, op), t)
  {
  }

  lemma BareOthers(st: State, sid: Sid, halt: Halt, del: Delete, t: Sid)
    requires sid in st.servers && t != sid
    ensures SameFor(st, AfterDelete(AfterHalt(st, sid, halt), sid, del), t) && SameFor(st, Bare(st, sid, halt, del), t)
  {
  }

  lemma UpdateLeavesOthers(st: State, sid: Sid, halt: Halt, del: Delete, spawn: Spawn, released: bool, t: Sid)
    requires sid in st.servers && t != sid
    ensures SameFor(st, UpdatePath(st, sid, halt, del, spawn, released), t)
  {
    var bare := Bare(st, sid, halt, del);
    var next := Rebuild(bare, sid, spawn);
    BareOthers(st, sid, halt, del, t);
    RebuildOthers(bare, sid, spawn, t);
    SameTransitive(st, bare, next, t);
    RebuildKeepsServing(bare, sid, spawn);
    var marked := MarkStopped(next, sid);
    assert SameFor(next, marked, t);
    SameTransitive(st, next, marked, t);
    ReleaseOthers(marked, sid, t);
    SameTransitive(st, marked, GiveBack(marked, sid, released), t);
  }

  lemma OthersUntouched(st: State, op: Op, t: Sid)
    requires Enabled(st, op) && IsLocal(op) && t != op.sid
    ensures SameFor(st, Apply(st, op), t)
  {
    if op.Start? || op.Restart? {
      EndpointStartLeavesOthers(st, op, t);
    } else if IsStart(op) {
      BackgroundStartLeavesOthers(st, op, t);
    } else if op.Create? {
      CreateLeavesOthers(st, op.sid, op.plan, op.spawn, op.released, t);
    } else if op.Update? {
      UpdateLeavesOthers(st, op.sid, op.halt, op.del, op.spawn, op.released, t);
    } else if LooksFirst(op) {
      LookingStopLeavesOthers(st, op, t);
    } else if IsStop(op) {
      PlainStopLeavesOthers(st, op, t);
    } else {
      RestLeavesOthers(st, op, t);
    }
  }

  lemma DeleteOk(st: State, sid: Sid, del: Delete)
    requires sid in st.servers && Ok(st, sid)
    ensures var st' := AfterDelete(st, sid, del);
      Ok(st', sid) && st'.servers == st.servers && st'.pending == st.pending
  {
  }

  /** A container spawned with devices whose rows the server holds. */
  lemma SpawnedOk(st: State, rows: map<Device, Sid>, sid: Sid, devices: set<Device>, spawn: Spawn)
    requires sid in st.servers && Ok(st, sid) && sid !in st.pending
    requires Kept(st.rows, rows, sid)
    requires (forall d | d in devices :: Holds(rows, sid, d)) && (devices != {} ==> st.pool != [] && st.servers[sid].gpus > 0)
    ensures Ok(Spawned(st, rows, sid, devices, spawn), sid)
  {
  }

  lemma RebuildOk(st: State, sid: Sid, spawn: Spawn)
    requires sid in st.servers && Ok(st, sid) && sid !in st.pending
    ensures Ok(Rebuild(st, sid, spawn), sid)
  {
    var count := GpuCount(st, st.servers[sid]);
    if Ensure(st, sid, count).Some? {
      EnsureGrants(st, sid, count);
      var rows := Ensure(st, sid, count).value;
      SpawnedOk(st, rows, sid, if st.pool == [] || count == 0 then {} else Held(rows, sid), spawn);
    }
  }

  lemma RespawnOk(st: State, sid: Sid, del: Delete, spawn: Spawn)
    requires sid in st.servers && Ok(st, sid) && sid !in st.pending
    ensures Ok(Respawn(st, sid, del, spawn), sid)
  {
    DeleteOk(st, sid, del);
    RebuildOk(AfterDelete(st, sid, del), sid, spawn);
  }

  /** A container without baked-in devices may be launched and marked at will. */
  lemma LaunchOk(st: State, sid: Sid, launch: Launch, status: Status)
    requires sid in st.servers && Ok(st, sid) && !HasDevices(st, sid)
    ensures var st' := AfterLaunch(st, sid, launch);
      Ok(st', sid) && Ok(Mark(st', sid, st.servers[sid].(status := status)), sid)
  {
  }

  lemma HaltOk(st: State, sid: Sid, halt: Halt)
    requires sid in st.servers && Ok(st, sid)
    ensures var st' := AfterHalt(st, sid, halt);
      Ok(st', sid) && st'.servers == st.servers && (HasDevices(st', sid) <==> HasDevices(st, sid))
  {
  }

  lemma PlainRestartOk(st: State, sid: Sid, halt: Halt, launch: Launch)
    requires sid in st.servers && Ok(st, sid) && !HasDevices(st, sid)
    ensures Ok(PlainRestart(st, sid, halt, launch), sid)
    ensures Ok(AfterLaunch(AfterHalt(st, sid, halt), sid, launch), sid)
  {
    HaltOk(st, sid, halt);
    LaunchOk(AfterHalt(st, sid, halt), sid, launch, Running);
  }

  /** Started by an endpoint: the container is rebuilt, or restarted in place when it has no devices. */
  lemma EndpointStartKeeps(st: State, op: Op)
    requires Enabled(st, op) && (op.Start? || op.Restart?) && Ok(st, op.sid) && op.sid !in st.pending
    ensures Ok(Apply(st, op), op.sid)
  {
    DeleteOk(st, op.sid, op.del);
    RebuildOk(st, op.sid, op.spawn);
    RebuildOk(AfterDelete(st, op.sid, op.del), op.sid, op.spawn);
    if op.Restart? && !HasDevices(st, op.sid) {
      PlainRestartOk(st, op.sid, op.halt, op.launch);
    }
  }

  lemma BackgroundStartKeeps(st: State, op: Op)
    requires Enabled(st, op) && IsStart(op) && !op.Start? && !op.Restart? && Ok(st, op.sid) && op.sid !in st.pending
    ensures Ok(Apply(st, op), op.sid)
  {
    RespawnOk(st, op.sid, op.del, op.spawn);
    if !HasDevices(st, op.sid) {
      if op.ScheduledStart? || op.BulkStart? {
        LaunchOk(st, op.sid, op.launch, Running);
      } else {
        PlainRestartOk(st, op.sid, op.halt, op.launch);
      }
    }
  }

  lemma CreateSucceeds(st: State, sid: Sid, plan: PlanId, released: bool)
    requires Enabled(st, Create(sid, plan, SpawnOk, released))
    ensures Ok(st, sid) ==> Ok(CreatePath(st, sid, plan, SpawnOk, released), sid)
  {
    var count := st.plans[plan];
    if Ensure(st, sid, count).Some? {
      var rows := Ensure(st, sid, count).value;
      assert count == 0 || st.pool == [] ==> Held(rows, sid) == {};
    }
  }

  lemma CreateFails(st: State, sid: Sid, plan: PlanId, left: Leftover, released: bool)
    requires Enabled(st, Create(sid, plan, SpawnFailed(left), released))
    ensures Ok(st, sid) ==> Ok(CreatePath(st, sid, plan, SpawnFailed(left), released), sid)
  {
    var count := st.plans[plan];
    if Ensure(st, sid, count).Some? {
      var rows := Ensure(st, sid, count).value;
      assert count == 0 || st.pool == [] ==> Held(rows, sid) == {};
      var next := AfterSpawn(st.(rows := rows), sid, Held(rows, sid), SpawnFailed(left));
      assert !Up(GiveBack(next, sid, released), sid);
    }
  }

  lemma CreateKeeps(st: State, op: Op)
    requires Enabled(st, op) && op.Create? && Ok(st, op.sid)
    ensures Ok(Apply(st, op), op.sid)
  {
    match op.spawn
    case SpawnOk => CreateSucceeds(st, op.sid, op.plan, op.released);
    case SpawnFailed(left) => CreateFails(st, op.sid, op.plan, left, op.released);
  }

  lemma ClearedOk(st: State, sid: Sid, released: bool)
    requires sid in st.servers && Ok(st, sid) && !Up(st, sid)
    ensures Ok(Cleared(st, sid, released), sid) && Ok(Erased(st, sid, released), sid)
  {
  }

  lemma LookingStopKeeps(st: State, op: Op)
    requires Enabled(st, op) && LooksFirst(op) && Ok(st, op.sid)
    ensures Ok(Apply(st, op), op.sid)
  {
    AllClearedOk(st, op.sid, op.del, op.released);
    if op.Stop? {
      assert Apply(st, op) == StopPath(st, op.sid, op.report, op.del, op.released);
    } else if op.ObservedStop? {
      assert Apply(st, op) == ObservedStopPath(st, op.sid, op.report, op.del, op.released);
    } else {
      assert Apply(st, op) == LogoutStopPath(st, op.sid, op.report, op.del, op.released);
    }
  }

  lemma PlainStopKeeps(st: State, op: Op)
    requires Enabled(st, op) && IsStop(op) && !LooksFirst(op) && Ok(st, op.sid)
    ensures Ok(Apply(st, op), op.sid)
  {
    AllClearedOk(st, op.sid, op.del, op.released);
  }

  lemma AllClearedOk(st: State, sid: Sid, del: Delete, released: bool)
    requires sid in st.servers && Ok(st, sid)
    ensures var next := AfterDelete(st, sid, del);
      && Ok(next, sid)
      && (!Up(next, sid) ==> Ok(Cleared(next, sid, released), sid) && Ok(Erased(next, sid, released), sid))
      && (!Up(st, sid) ==> Ok(Cleared(st, sid, released), sid) && Ok(Erased(st, sid, released), sid))
  {
    DeleteOk(st, sid, del);
    var next := AfterDelete(st, sid, del);
    if !Up(st, sid) {
      ClearedOk(st, sid, released);
    }
    if !Up(next, sid) {
      ClearedOk(next, sid, released);
    }
  }

  lemma RestKeeps(st: State, op: Op)
    requires Enabled(st, op) && Allowed(CAREFUL, st, op)
    requires IsLocal(op) && !IsStart(op) && !IsStop(op) && !op.Create? && !op.Update? && Ok(st, op.sid)
    ensures Ok(Apply(st, op), op.sid)
  {
  }

  lemma BareOk(st: State, sid: Sid, halt: Halt, del: Delete)
    requires sid in st.servers && Ok(st, sid) && (st.servers[sid].container.Some? ==> del.reported && Honest(del))
    ensures Ok(Bare(st, sid, halt, del), sid) && !Up(Bare(st, sid, halt, del), sid)
    ensures Bare(st, sid, halt, del).pending == st.pending && Bare(st, sid, halt, del).rows == st.rows
  {
  }

  /** What is left of a failed spawn is down; clearing the mark and the rows keeps the invariant. */
  lemma FailedSpawnDown(st: State, sid: Sid, spawn: Spawn, released: bool)
    requires sid in st.servers && Ok(st, sid) && !Up(st, sid) && sid !in st.pending && spawn.SpawnFailed?
    ensures var next := Rebuild(st, sid, spawn);
      && Ok(next, sid) && !Up(next, sid) && sid in next.servers
      && var end := GiveBack(MarkStopped(next, sid), sid, released); Ok(end, sid) && !Up(end, sid)
  {
    RebuildOk(st, sid, spawn);
    RebuildKeepsServing(st, sid, spawn);
  }

  lemma UpdateKeeps(st: State, sid: Sid, halt: Halt, del: Delete, spawn: Spawn, released: bool)
    requires sid in st.servers && Ok(st, sid) && Honest(del) && sid !in st.pending
    ensures Ok(UpdatePath(st, sid, halt, del, spawn, released), sid)
  {
    HaltOk(st, sid, halt);
    DeleteOk(AfterHalt(st, sid, halt), sid, del);
    if st.servers[sid].container.None? || del.reported {
      BareOk(st, sid, halt, del);
      RebuildOk(Bare(st, sid, halt, del), sid, spawn);
      if spawn.SpawnFailed? {
        FailedSpawnDown(Bare(st, sid, halt, del), sid, spawn, released);
      }
    }
  }

  lemma GlobalKeeps(st: State, op: Op, t: Sid)
    requires Enabled(st, op) && Allowed(CAREFUL, st, op) && !IsLocal(op) && Ok(st, t)
    ensures Ok(Apply(st, op), t)
  {
  }

  lemma InvStep(st: State, op: Op)
    requires Inv(st) && Enabled(st, op) && Allowed(CAREFUL, st, op)
    ensures Inv(Apply(st, op))
  {
    forall t: Sid ensures Ok(Apply(st, op), t) {
      assert Ok(st, t);
      if !IsLocal(op) {
        GlobalKeeps(st, op, t);
      } else if t != op.sid {
        OthersUntouched(st, op, t);
      } else if op.Start? || op.Restart? {
        EndpointStartKeeps(st, op);
      } else if IsStart(op) {
        BackgroundStartKeeps(st, op);
      } else if op.Create? {
        CreateKeeps(st, op);
      } else if op.Update? {
        UpdateKeeps(st, op.sid, op.halt, op.del, op.spawn, op.released);
      } else if LooksFirst(op) {
        LookingStopKeeps(st, op);
      } else if IsStop(op) {
        PlainStopKeeps(st, op);
      } else {
        RestKeeps(st, op);
      }
    }
  }

  lemma {:induction false} InvAlong(st: State, ops: seq<Op>)
    requires Inv(st) && Runs(CAREFUL, st, ops)
    ensures Inv(After(CAREFUL, st, ops))
    decreases |ops|
  {
    if ops != [] {
      InvStep(st, ops[0]);
      InvAlong(Apply(st, ops[0]), ops[1..]);
    }
  }

  /** However the paths are interleaved, no two running containers share a device. */
  lemma ExclusiveThroughout(st: State, ops: seq<Op>)
    requires Inv(st) && Runs(CAREFUL, st, ops)
    ensures Exclusive(After(CAREFUL, st, ops))
    ensures forall sid: Sid, d | Up(After(CAREFUL, st, ops), sid) && d in After(CAREFUL, st, ops).containers[sid].devices ::
      Holds(After(CAREFUL, st, ops).rows, sid, d)
  {
    InvAlong(st, ops);
    var end := After(CAREFUL, st, ops);
    InvIsExclusive(end);
    forall sid: Sid, d | Up(end, sid) && d in end.containers[sid].devices ensures Holds(end.rows, sid, d) {
      assert Ok(end, sid);
    }
  }

  // ---------------------------------------------------------------------------------------
  // Stop safety
  // ---------------------------------------------------------------------------------------

  /** The record vanished, was marked stopped, or forgot its container. */
  predicate Dismissed(st: State, st': State, sid: Sid) {
    sid in st.servers &&
    (|| sid !in st'.servers
     || (st.servers[sid].status.Running? && st'.servers[sid].status.Stopped?)
     || (st.servers[sid].container.Some? && st'.servers[sid].container.None?))
  }

  predicate KeepsServing(st: State, st': State, sid: Sid) {
    !Dismissed(st, st', sid) && sid in st'.servers
  }

  lemma RebuildKeepsServing(st: State, sid: Sid, spawn: Spawn)
    requires sid in st.servers
    ensures KeepsServing(st, Rebuild(st, sid, spawn), sid)
  {
    var count := GpuCount(st, st.servers[sid]);
    if Ensure(st, sid, count).Some? {
      var rows := Ensure(st, sid, count).value;
      SpawnedKeepsRecords(st, rows, sid, if st.pool == [] || count == 0 then {} else Held(rows, sid), spawn, sid);
    }
  }

  lemma RespawnKeepsServing(st: State, sid: Sid, del: Delete, spawn: Spawn)
    requires sid in st.servers
    ensures var again := Rebuild(AfterDelete(st, sid, del), sid, spawn);
      KeepsServing(st, again, sid) && Kept(st.rows, again.rows, sid)
    ensures KeepsServing(st, Respawn(st, sid, del, spawn), sid) && Kept(st.rows, Respawn(st, sid, del, spawn).rows, sid)
  {
    var mid := AfterDelete(st, sid, del);
    assert mid.servers == st.servers && mid.rows == st.rows;
    RebuildKeepsServing(mid, sid, spawn);
    RebuildKeepsRows(mid, sid, spawn, sid);
  }

  lemma EndpointStartDismissesNobody(st: State, op: Op)
    requires Enabled(st, op) && (op.Start? || op.Restart?)
    ensures !Dismissed(st, Apply(st, op), op.sid) && Kept(st.rows, Apply(st, op).rows, op.sid)
  {
    RebuildKeepsServing(st, op.sid, op.spawn);
    RebuildKeepsRows(st, op.sid, op.spawn, op.sid);
    RespawnKeepsServing(st, op.sid, op.del, op.spawn);
  }

  lemma BackgroundStartDismissesNobody(st: State, sid: Sid, del: Delete, spawn: Spawn, launch: Launch)
    requires sid in st.servers
    ensures var st' := BackgroundStart(st, sid, del, spawn, launch);
      !Dismissed(st, st', sid) && Kept(st.rows, st'.rows, sid)
  {
    RespawnKeepsServing(st, sid, del, spawn);
  }

  lemma StartDismissesNobody(st: State, op: Op)
    requires Enabled(st, op) && IsStart(op)
    ensures !Dismissed(st, Apply(st, op), op.sid) && Kept(st.rows, Apply(st, op).rows, op.sid)
  {
    if op.Start? || op.Restart? {
      EndpointStartDismissesNobody(st, op);
    } else if op.ScheduledStart? || op.BulkStart? {
      BackgroundStartDismissesNobody(st, op.sid, op.del, op.spawn, op.launch);
    } else if op.ScheduledRestart? {
      ScheduledRestartDismissesNobody(st, op.sid, op.del, op.spawn, op.halt, op.launch);
    } else {
      HealthRestartDismissesNobody(st, op.sid, op.del, op.spawn, op.halt, op.launch);
    }
  }

  lemma PlainRestartKeepsServing(st: State, sid: Sid, halt: Halt, launch: Launch)
    requires sid in st.servers
    ensures KeepsServing(st, PlainRestart(st, sid, halt, launch), sid) && PlainRestart(st, sid, halt, launch).rows == st.rows
  {
  }

  lemma ScheduledRestartDismissesNobody(st: State, sid: Sid, del: Delete, spawn: Spawn, halt: Halt, launch: Launch)
    requires sid in st.servers
    ensures var st' := ScheduledRestartPath(st, sid, del, spawn, halt, launch); !Dismissed(st, st', sid) && Kept(st.rows, st'.rows, sid)
  {
    RespawnKeepsServing(st, sid, del, spawn);
    PlainRestartKeepsServing(st, sid, halt, launch);
  }

  lemma HealthRestartDismissesNobody(st: State, sid: Sid, del: Delete, spawn: Spawn, halt: Halt, launch: Launch)
    requires sid in st.servers
    ensures var st' := HealthRestartPath(st, sid, del, spawn, halt, launch); !Dismissed(st, st', sid) && Kept(st.rows, st'.rows, sid)
  {
    RespawnKeepsServing(st, sid, del, spawn);
  }

  /** Dismissal means nothing of the server runs; a loss of rows, that no container with devices does. */
  ghost predicate DownIfDismissed(st: State, st': State, sid: Sid) {
    && (Dismissed(st, st', sid) ==> !Up(st', sid))
    && (!Kept(st.rows, st'.rows, sid) ==> !Up(st', sid) || !HasDevices(st', sid))
  }

  lemma ClearedDown(st: State, sid: Sid, del: Delete, released: bool)
    requires sid in st.servers && Ok(st, sid)
    ensures var next := AfterDelete(st, sid, del);
      && DownIfDismissed(st, next, sid)
      && (!Up(next, sid) ==> DownIfDismissed(st, Cleared(next, sid, released), sid) && DownIfDismissed(st, Erased(next, sid, released), sid))
      && (!Up(st, sid) ==> DownIfDismissed(st, Cleared(st, sid, released), sid) && DownIfDismissed(st, Erased(st, sid, released), sid))
  {
  }

  lemma LookingStopWhenDown(st: State, op: Op)
    requires LooksFirst(op) && Ok(st, op.sid) && Enabled(st, op)
    ensures DownIfDismissed(st, Apply(st, op), op.sid)
  {
    ClearedDown(st, op.sid, op.del, op.released);
    if op.Stop? {
      assert Apply(st, op) == StopPath(st, op.sid, op.report, op.del, op.released);
    } else if op.ObservedStop? {
      assert Apply(st, op) == ObservedStopPath(st, op.sid, op.report, op.del, op.released);
    } else {
      assert Apply(st, op) == LogoutStopPath(st, op.sid, op.report, op.del, op.released);
    }
  }

  lemma PlainStopWhenDown(st: State, op: Op)
    requires IsStop(op) && !LooksFirst(op) && Ok(st, op.sid) && Enabled(st, op)
    ensures DownIfDismissed(st, Apply(st, op), op.sid)
  {
    ClearedDown(st, op.sid, op.del, op.released);
  }

  lemma OtherStopWhenDown(st: State, op: Op)
    requires op.BulkStop? || op.BulkErase? || op.BulkRelease? || op.SyncStatus?
    requires Ok(st, op.sid) && Enabled(st, op)
    ensures DownIfDismissed(st, Apply(st, op), op.sid)
  {
  }

  /** A server is dismissed only once nothing of it runs, and loses rows only if no GPU container does. */
  lemma DismissedOnlyWhenDown(st: State, op: Op, sid: Sid)
    requires Inv(st) && Enabled(st, op) && Allowed(CAREFUL, st, op)
    ensures DownIfDismissed(st, Apply(st, op), sid)
  {
    assert Ok(st, sid);
    if IsLocal(op) && sid != op.sid {
      OthersUntouched(st, op, sid);
    } else if IsStart(op) {
      StartDismissesNobody(st, op);
    } else if op.Update? {
      UpdateWhenDown(st, op.sid, op.halt, op.del, op.spawn, op.released);
    } else if LooksFirst(op) {
      LookingStopWhenDown(st, op);
    } else if IsStop(op) {
      PlainStopWhenDown(st, op);
    } else if op.BulkStop? || op.BulkErase? || op.BulkRelease? || op.SyncStatus? {
      OtherStopWhenDown(st, op);
    } else if op.Create? {
      CreateDown(st, op);
    } else {
      RestDown(st, op, sid);
    }
  }

  /** A new server has neither record nor rows to lose. */
  lemma CreateDown(st: State, op: Op)
    requires Enabled(st, op) && op.Create?
    ensures DownIfDismissed(st, Apply(st, op), op.sid)
  {
    assert Held(st.rows, op.sid) == {};
    assert forall d :: Holds(st.rows, op.sid, d) ==> d in Held(st.rows, op.sid);
  }

  /** An update leaves the server running, or recorded stopped with nothing of it running. */
  lemma UpdateWhenDown(st: State, sid: Sid, halt: Halt, del: Delete, spawn: Spawn, released: bool)
    requires sid in st.servers && Ok(st, sid) && Honest(del) && sid !in st.pending
    ensures DownIfDismissed(st, UpdatePath(st, sid, halt, del, spawn, released), sid)
  {
    var bare := Bare(st, sid, halt, del);
    if st.servers[sid].container.None? || del.reported {
      BareOk(st, sid, halt, del);
      RebuildKeepsRows(bare, sid, spawn, sid);
      if spawn.SpawnFailed? {
        FailedSpawnDown(bare, sid, spawn, released);
      } else if Ensure(bare, sid, GpuCount(bare, bare.servers[sid])).Some? {
        RebuildServes(bare, sid);
      }
    }
  }

  /** Reconciliation, plan edits, failed releases, deleted users and what containers do on their own. */
  lemma RestDown(st: State, op: Op, sid: Sid)
    requires Enabled(st, op) && Allowed(CAREFUL, st, op) && Ok(st, sid) && (IsLocal(op) ==> sid == op.sid)
    requires !IsStart(op) && !IsStop(op) && !op.Create? && !op.Update? && !op.BulkStop? && !op.BulkErase? && !op.BulkRelease? && !op.SyncStatus?
    ensures DownIfDismissed(st, Apply(st, op), sid)
  {
  }

  /** The runtime vouched for it: no container on record, one seen stopped, or a call that reported success. */
  predicate Confirmed(st: State, op: Op)
    requires Enabled(st, op) && IsStop(op)
  {
    match op
    case Stop(sid, report, del, _) => st.servers[sid].container.None? || report.IsStopped? || (report.IsRunning? && del.reported)
    case ObservedStop(sid, report, del, _) => st.servers[sid].container.None? || report.IsStopped? || (report.IsRunning? && del.reported)
    case LogoutStop(sid, report, del, _) => st.servers[sid].container.Some? && (report.IsStopped? || (report.IsRunning? && del.reported))
    case Erase(sid, del, _) => st.servers[sid].container.None? || del.reported
    case BlindStop(_, del, _) => del.reported
    case ScheduledStop(sid, del, released) => st.servers[sid].container.Some? && st.servers[sid].status.Running? && del.reported && released
  }

  /** The record is cleared (or deleted) and, unless the release itself fails, no device is held. */
  ghost predicate PutAway(st: State, op: Op, st': State)
    requires Enabled(st, op) && IsStop(op)
  {
    && (if op.released then Held(st'.rows, op.sid) == {} else st'.rows == st.rows)
    && (if op.Erase? then op.sid !in st'.servers else ClearedRecord(st, op.sid, st'))
  }

  predicate ClearedRecord(st: State, sid: Sid, st': State)
    requires sid in st.servers
  {
    sid in st'.servers && st'.servers[sid] == st.servers[sid].(status := Stopped, container := None)
  }

  /** Left for a retry: only the container may have changed. */
  predicate LeftAlone(st: State, st': State) {
    st' == st.(containers := st'.containers)
  }

  lemma ClearedIsPutAway(st: State, sid: Sid, del: Delete, released: bool)
    requires sid in st.servers
    ensures var a, b := Cleared(st, sid, released), Cleared(AfterDelete(st, sid, del), sid, released);
      && ClearedRecord(st, sid, a) && (if released then Held(a.rows, sid) == {} else a.rows == st.rows)
      && ClearedRecord(st, sid, b) && (if released then Held(b.rows, sid) == {} else b.rows == st.rows)
      && LeftAlone(st, AfterDelete(st, sid, del))
  {
  }

  lemma LookingStopConfirmed(st: State, op: Op)
    requires Enabled(st, op) && LooksFirst(op)
    ensures if Confirmed(st, op) then PutAway(st, op, Apply(st, op)) else LeftAlone(st, Apply(st, op))
  {
    ClearedIsPutAway(st, op.sid, op.del, op.released);
    if op.Stop? {
      assert Apply(st, op) == StopPath(st, op.sid, op.report, op.del, op.released);
    } else if op.ObservedStop? {
      assert Apply(st, op) == ObservedStopPath(st, op.sid, op.report, op.del, op.released);
    } else {
      assert Apply(st, op) == LogoutStopPath(st, op.sid, op.report, op.del, op.released);
    }
  }

  lemma PlainStopConfirmed(st: State, op: Op)
    requires Enabled(st, op) && IsStop(op) && !LooksFirst(op)
    ensures if Confirmed(st, op) then PutAway(st, op, Apply(st, op)) else LeftAlone(st, Apply(st, op))
  {
  }

  /** A stop takes effect exactly when it is confirmed; any other leaves record and rows for a retry. */
  lemma StopsExactlyWhenConfirmed(st: State, op: Op)
    requires Enabled(st, op) && IsStop(op)
    ensures if Confirmed(st, op) then PutAway(st, op, Apply(st, op)) else LeftAlone(st, Apply(st, op))
  {
    if LooksFirst(op) {
      LookingStopConfirmed(st, op);
    } else {
      PlainStopConfirmed(st, op);
    }
  }

  // ---------------------------------------------------------------------------------------
  // What a start achieves
  // ---------------------------------------------------------------------------------------

  /** Running, on record, and carrying exactly the rows the server holds (none without GPUs). */
  predicate Serving(st: State, sid: Sid, gpus: nat) {
    && OnRecord(st, sid) && st.servers[sid].status.Running? && st.containers[sid].up
    && st.containers[sid].devices == (if st.pool == [] || gpus == 0 then {} else Held(st.rows, sid))
  }

  lemma RebuildServes(st: State, sid: Sid)
    requires sid in st.servers && Ensure(st, sid, GpuCount(st, st.servers[sid])).Some?
    ensures Serving(Rebuild(st, sid, SpawnOk), sid, GpuCount(st, st.servers[sid]))
  {
  }
}
