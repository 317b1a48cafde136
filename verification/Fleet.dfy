/**
 Servers, their containers and the exclusive GPU device table
 (backend/app/api/servers.py, backend/app/api/admin.py, backend/app/tasks.py,
 backend/app/api/auth.py, backend/app/services/schedule_service.py,
 backend/app/services/health_check_service.py, backend/app/services/user_service.py,
 backend/app/services/gpu_allocator.py, backend/app/container/spawner.py).

 Every per-server code path is one step. What the container runtime answers, and what it really
 did, is part of the step: a status may be unknown, a delete may fail, a failed call may or may
 not have taken effect.
 */
module Fleet {
  import opened Common

  type Sid = nat
  type PlanId = nat
  type Device = string

  datatype Status = Running | Stopped

  /** The database row: `gpus` is the GPU count recorded when the server was created. */
  datatype Record = Record(plan: Option<PlanId>, gpus: nat, status: Status, container: Option<nat>)

  /** A container keeps the devices it was created with for as long as it exists. */
  datatype Container = Container(id: nat, devices: set<Device>, up: bool)

  datatype State = State(
    pool: seq<Device>,
    plans: map<PlanId, nat>,             // gpu_limit by plan
    servers: map<Sid, Record>,
    containers: map<Sid, Container>,     // one per server: the name is derived from the server
    rows: map<Device, Sid>,              // gpu_allocations; device is the unique column
    pending: set<Sid>,                   // bulk-stopped or bulk-deleted, rows not released yet
    nextId: nat
  )

  // ---------------------------------------------------------------------------------------
  // Answers of the container runtime
  // ---------------------------------------------------------------------------------------

  datatype Report = IsRunning | IsStopped | IsUnknown

  datatype Delete = Delete(reported: bool, gone: bool)

  datatype Halt = Halt(reported: bool, down: bool)

  datatype Launch = Launch(reported: bool, up: bool)

  /** What is left under the server's container name when a spawn fails. */
  datatype Leftover = Untouched | Removed | LeftDown

  datatype Spawn = SpawnOk | SpawnFailed(left: Leftover)

  datatype Op =
    | Create(sid: Sid, plan: PlanId, spawn: Spawn, released: bool)
    | Start(sid: Sid, report: Report, del: Delete, spawn: Spawn)
    | Stop(sid: Sid, report: Report, del: Delete, released: bool)
    | Restart(sid: Sid, report: Report, del: Delete, spawn: Spawn, halt: Halt, launch: Launch)
    | Update(sid: Sid, halt: Halt, del: Delete, spawn: Spawn, released: bool)   // new configuration, same plan
    | Erase(sid: Sid, del: Delete, released: bool)
    | UserErased(sid: Sid)                                                  // one record of a deleted user
    | ObservedStop(sid: Sid, report: Report, del: Delete, released: bool)   // idle and volume quota stops
    | LogoutStop(sid: Sid, report: Report, del: Delete, released: bool)
    | BlindStop(sid: Sid, del: Delete, released: bool)                      // runtime limit and depleted credits
    | ScheduledStart(sid: Sid, report: Report, del: Delete, spawn: Spawn, launch: Launch)
    | ScheduledStop(sid: Sid, del: Delete, released: bool)
    | ScheduledRestart(sid: Sid, del: Delete, spawn: Spawn, halt: Halt, launch: Launch)
    | HealthRestart(sid: Sid, del: Delete, spawn: Spawn, halt: Halt, launch: Launch)
    | BulkStart(sid: Sid, del: Delete, spawn: Spawn, launch: Launch)
    | BulkStop(sid: Sid, halt: Halt)
    | BulkErase(sid: Sid, del: Delete)
    | BulkRelease(sid: Sid)
    | BulkReleaseFails(sid: Sid)                            // logged and dropped; the rows stay
    | SyncStatus(sid: Sid, report: Report)
    | Reconcile(aged: set<Device>)
    | EditPlan(plan: PlanId, gpuLimit: nat)
    | DropPlan(plan: PlanId)
    | ContainerExits(sid: Sid)
    | ContainerVanishes(sid: Sid)

  // ---------------------------------------------------------------------------------------
  // The allocator
  // ---------------------------------------------------------------------------------------

  function Held(rows: map<Device, Sid>, sid: Sid): set<Device> {
    set d | d in rows && rows[d] == sid
  }

  function Free(pool: seq<Device>, rows: map<Device, Sid>): seq<Device> {
    if pool == [] then []
    else (if pool[0] in rows then [] else [pool[0]]) + Free(pool[1..], rows)
  }

  predicate Distinct(s: seq<Device>) {
    forall i, j | 0 <= i < j < |s| :: s[i] != s[j]
  }

  /** The first `count` free devices in pool order, or nothing when they run out or repeat. */
  function Allocate(pool: seq<Device>, rows: map<Device, Sid>, sid: Sid, count: nat): Option<map<Device, Sid>> {
    var free := Free(pool, rows);
    if |free| < count || !Distinct(free[..count]) then None
    else Some(rows + map d | d in free[..count] :: sid)
  }

  /** The rows after making sure the server holds devices; None is the 429 answer. */
  function Ensure(st: State, sid: Sid, count: nat): Option<map<Device, Sid>> {
    if st.pool == [] || count == 0 || Held(st.rows, sid) != {} then Some(st.rows)
    else Allocate(st.pool, st.rows, sid, count)
  }

  function Release(st: State, sid: Sid): State {
    st.(rows := st.rows - Held(st.rows, sid))
  }

  /** A release at the end of a path: one that fails is logged and the rows stay. */
  function GiveBack(st: State, sid: Sid, released: bool): State {
    if released then Release(st, sid) else st
  }

  lemma {:induction false} FreeIsFree(pool: seq<Device>, rows: map<Device, Sid>)
    ensures forall d :: d in Free(pool, rows) <==> d in pool && d !in rows
    ensures Distinct(pool) ==> Distinct(Free(pool, rows))
    decreases |pool|
  {
    if pool != [] {
      FreeIsFree(pool[1..], rows);
      assert Distinct(pool) ==> Distinct(pool[1..]);
      assert Distinct(pool) ==> pool[0] !in pool[1..];
    }
  }

  lemma {:induction false} DistinctSize(ds: seq<Device>)
    requires Distinct(ds)
    ensures |set d | d in ds| == |ds|
    decreases |ds|
  {
    var all := set d | d in ds;
    if ds == [] {
      assert all == {};
    } else {
      DistinctSize(ds[1..]);
      assert all == {ds[0]} + set d | d in ds[1..];
    }
  }

  lemma {:induction false} AllFree(pool: seq<Device>)
    ensures Free(pool, map[]) == pool
    decreases |pool|
  {
    if pool != [] {
      AllFree(pool[1..]);
    }
  }

  // ---------------------------------------------------------------------------------------
  // The container runtime
  // ---------------------------------------------------------------------------------------

  /** The container id on record names the container that is there. */
  predicate OnRecord(st: State, sid: Sid) {
    && sid in st.servers && sid in st.containers
    && st.servers[sid].container == Some(st.containers[sid].id)
  }

  predicate Truthful(st: State, sid: Sid, r: Report) {
    && (r.IsRunning? ==> OnRecord(st, sid) && st.containers[sid].up)
    && (r.IsStopped? ==> OnRecord(st, sid) && !st.containers[sid].up)
  }

  function AfterDelete(st: State, sid: Sid, d: Delete): State {
    if OnRecord(st, sid) && d.gone then st.(containers := st.containers - {sid}) else st
  }

  function AfterHalt(st: State, sid: Sid, h: Halt): State {
    if OnRecord(st, sid) && h.down then st.(containers := st.containers[sid := st.containers[sid].(up := false)]) else st
  }

  function AfterLaunch(st: State, sid: Sid, l: Launch): State {
    if OnRecord(st, sid) && l.up then st.(containers := st.containers[sid := st.containers[sid].(up := true)]) else st
  }

  /** A spawn replaces whatever container had the name; the new one carries exactly `devices`. */
  function AfterSpawn(st: State, sid: Sid, devices: set<Device>, o: Spawn): State {
    match o
    case SpawnOk => st.(containers := st.containers[sid := Container(st.nextId, devices, true)], nextId := st.nextId + 1)
    case SpawnFailed(Untouched) => st
    case SpawnFailed(Removed) => st.(containers := st.containers - {sid})
    case SpawnFailed(LeftDown) =>
      st.(containers := st.containers[sid := Container(st.nextId, devices, false)], nextId := st.nextId + 1)
  }

  // ---------------------------------------------------------------------------------------
  // Code paths
  // ---------------------------------------------------------------------------------------

  predicate PlanKnown(st: State, rec: Record) {
    rec.plan.Some? && rec.plan.value in st.plans
  }

  /** Plan limit when the plan is known, else the recorded allocation. */
  function GpuCount(st: State, rec: Record): nat {
    if PlanKnown(st, rec) then st.plans[rec.plan.value] else rec.gpus
  }

  /** The recreate guard as the endpoints ask it, with the plan at hand. */
  predicate RecreateByPlan(st: State, rec: Record) {
    st.pool != [] && GpuCount(st, rec) > 0
  }

  /** The recreate guard as bulk, scheduled and health-driven starts ask it, without a plan. */
  predicate RecreateByRecord(st: State, rec: Record) {
    st.pool != [] && rec.gpus > 0
  }

  function Mark(st: State, sid: Sid, rec: Record): State {
    st.(servers := st.servers[sid := rec])
  }

  /** Spawn with the devices in hand and, on success, put the new container on record. */
  function Spawned(st: State, rows: map<Device, Sid>, sid: Sid, devices: set<Device>, spawn: Spawn): State
    requires sid in st.servers
  {
    var next := AfterSpawn(st.(rows := rows), sid, devices, spawn);
    if spawn.SpawnOk? then Mark(next, sid, st.servers[sid].(status := Running, container := Some(st.nextId))) else next
  }

  /** Reserve devices and spawn; an exhausted pool changes nothing. */
  function Rebuild(st: State, sid: Sid, spawn: Spawn): State
    requires sid in st.servers
  {
    var count := GpuCount(st, st.servers[sid]);
    match Ensure(st, sid, count)
    case None => st
    case Some(rows) => Spawned(st, rows, sid, if st.pool == [] || count == 0 then {} else Held(rows, sid), spawn)
  }

  /** _respawn_server_container: an exhausted pool is reported before the old container is touched. */
  function Respawn(st: State, sid: Sid, del: Delete, spawn: Spawn): State
    requires sid in st.servers
  {
    if Ensure(st, sid, GpuCount(st, st.servers[sid])).None? then st
    else Rebuild(AfterDelete(st, sid, del), sid, spawn)
  }

  function Cleared(st: State, sid: Sid, released: bool): State
    requires sid in st.servers
  {
    GiveBack(Mark(st, sid, st.servers[sid].(status := Stopped, container := None)), sid, released)
  }

  /** The plain stop and start of an existing container. */
  function PlainRestart(st: State, sid: Sid, halt: Halt, launch: Launch): State
    requires sid in st.servers
  {
    var halted := AfterHalt(st, sid, halt);
    if !halt.reported then halted else
      var launched := AfterLaunch(halted, sid, launch);
      if !launch.reported then launched else Mark(launched, sid, st.servers[sid].(status := Running))
  }

  /** create_server and the queue: reserve, spawn, record; a failed spawn gives the devices back. */
  function CreatePath(st: State, sid: Sid, plan: PlanId, spawn: Spawn, released: bool): State
    requires plan in st.plans
  {
    match Ensure(st, sid, st.plans[plan])
    case None => st
    case Some(rows) =>
      var next := AfterSpawn(st.(rows := rows), sid, Held(rows, sid), spawn);
      if spawn.SpawnOk? then Mark(next, sid, Record(Some(plan), st.plans[plan], Running, Some(st.nextId)))
      else GiveBack(next, sid, released)
  }

  /** _perform_server_start: without a container the plan must still exist. */
  function StartPath(st: State, sid: Sid, report: Report, del: Delete, spawn: Spawn): State
    requires sid in st.servers
  {
    if st.servers[sid].container.None? then (if PlanKnown(st, st.servers[sid]) then Rebuild(st, sid, spawn) else st)
    else if report.IsRunning? then st
    else Rebuild(if report.IsStopped? then AfterDelete(st, sid, del) else st, sid, spawn)
  }

  /** _perform_server_stop. */
  function StopPath(st: State, sid: Sid, report: Report, del: Delete, released: bool): State
    requires sid in st.servers
  {
    if st.servers[sid].container.None? then Cleared(st, sid, released)
    else if report.IsUnknown? then st
    else if report.IsStopped? || del.reported then Cleared(AfterDelete(st, sid, del), sid, released)
    else AfterDelete(st, sid, del)
  }

  /** _perform_server_restart. */
  function RestartPath(st: State, sid: Sid, report: Report, del: Delete, spawn: Spawn, halt: Halt, launch: Launch): State
    requires sid in st.servers
  {
    var rec := st.servers[sid];
    if rec.container.None? then st
    else if report.IsUnknown? || RecreateByPlan(st, rec) then
      Rebuild(if report.IsUnknown? then st else AfterDelete(st, sid, del), sid, spawn)
    else PlainRestart(st, sid, halt, launch)
  }

  /** _perform_server_delete. */
  function ErasePath(st: State, sid: Sid, del: Delete, released: bool): State
    requires sid in st.servers
  {
    if st.servers[sid].container.None? then Erased(st, sid, released)
    else if del.reported then Erased(AfterDelete(st, sid, del), sid, released)
    else AfterDelete(st, sid, del)
  }

  /** The record an update spawns from: container deleted, rows kept. */
  function Bare(st: State, sid: Sid, halt: Halt, del: Delete): State
    requires sid in st.servers
  {
    var rec := st.servers[sid];
    if rec.container.None? then st
    else Mark(AfterDelete(AfterHalt(st, sid, halt), sid, del), sid, rec.(status := Stopped, container := None))
  }

  function MarkStopped(st: State, sid: Sid): State {
    if sid in st.servers then Mark(st, sid, st.servers[sid].(status := Stopped)) else st
  }

  /** The recreate in update_server: delete, record, reserve, spawn; a failed spawn gives the devices back. */
  function UpdatePath(st: State, sid: Sid, halt: Halt, del: Delete, spawn: Spawn, released: bool): State
    requires sid in st.servers
  {
    var bare := Bare(st, sid, halt, del);
    if st.servers[sid].container.Some? && !del.reported then AfterDelete(AfterHalt(st, sid, halt), sid, del)
    else if spawn.SpawnOk? || Ensure(bare, sid, GpuCount(st, st.servers[sid])).None? then Rebuild(bare, sid, spawn)
    else GiveBack(MarkStopped(Rebuild(bare, sid, spawn), sid), sid, released)
  }

  /** shutdown_idle_servers and enforce_volume_quotas. */
  function ObservedStopPath(st: State, sid: Sid, report: Report, del: Delete, released: bool): State
    requires sid in st.servers
  {
    if st.servers[sid].container.None? then Cleared(st, sid, released)
    else if report.IsUnknown? then st
    else if report.IsStopped? then Cleared(st, sid, released)
    else BlindStopPath(st, sid, del, released)
  }

  /** The logout loop passes over servers without a container. */
  function LogoutStopPath(st: State, sid: Sid, report: Report, del: Delete, released: bool): State
    requires sid in st.servers
  {
    if st.servers[sid].container.None? then st else ObservedStopPath(st, sid, report, del, released)
  }

  /** enforce_auto_stop and the depleted branch of process_nuke_billing. */
  function BlindStopPath(st: State, sid: Sid, del: Delete, released: bool): State
    requires sid in st.servers
  {
    if del.reported then Cleared(AfterDelete(st, sid, del), sid, released) else AfterDelete(st, sid, del)
  }

  /** Scheduled stops: here a failed release is not swallowed, and the record is rolled back. */
  function ScheduledStopPath(st: State, sid: Sid, del: Delete, released: bool): State
    requires sid in st.servers
  {
    if st.servers[sid].container.None? || st.servers[sid].status.Stopped? then st
    else if released then BlindStopPath(st, sid, del, released)
    else AfterDelete(st, sid, del)
  }

  /** Bulk starts, and scheduled ones once the container is seen stopped. */
  function BackgroundStart(st: State, sid: Sid, del: Delete, spawn: Spawn, launch: Launch): State
    requires sid in st.servers
  {
    var rec := st.servers[sid];
    if rec.container.None? then st
    else if RecreateByRecord(st, rec) then Respawn(st, sid, del, spawn)
    else
      var next := AfterLaunch(st, sid, launch);
      if launch.reported then Mark(next, sid, rec.(status := Running)) else next
  }

  /** Scheduled restarts of running servers. */
  function ScheduledRestartPath(st: State, sid: Sid, del: Delete, spawn: Spawn, halt: Halt, launch: Launch): State
    requires sid in st.servers
  {
    var rec := st.servers[sid];
    if rec.container.None? || rec.status.Stopped? then st
    else if RecreateByRecord(st, rec) then Respawn(st, sid, del, spawn)
    else PlainRestart(st, sid, halt, launch)
  }

  /**
   Restarts after failed health checks, of servers marked running: the mark is not touched, and the
   plain stop and start ignore their answers.
   */
  function HealthRestartPath(st: State, sid: Sid, del: Delete, spawn: Spawn, halt: Halt, launch: Launch): State
    requires sid in st.servers
  {
    var rec := st.servers[sid];
    if rec.container.None? then st
    else if RecreateByRecord(st, rec) then Respawn(st, sid, del, spawn)
    else AfterLaunch(AfterHalt(st, sid, halt), sid, launch)
  }

  /** Bulk stop keeps the container and leaves the rows to a release after the whole batch. */
  function BulkStopPath(st: State, sid: Sid, halt: Halt): State
    requires sid in st.servers
  {
    if st.servers[sid].container.None? then st
    else if !halt.reported then AfterHalt(st, sid, halt)
    else Mark(AfterHalt(st, sid, halt), sid, st.servers[sid].(status := Stopped)).(pending := st.pending + {sid})
  }

  function BulkErasePath(st: State, sid: Sid, del: Delete): State
    requires sid in st.servers
  {
    var next := AfterDelete(st, sid, del);
    if st.servers[sid].container.Some? && !del.reported then next
    else next.(servers := next.servers - {sid}, pending := st.pending + {sid})
  }

  /** Listing servers writes the observed status back. */
  function SyncPath(st: State, sid: Sid, report: Report): State
    requires sid in st.servers
  {
    var rec := st.servers[sid];
    if rec.container.None? || report.IsUnknown? then st
    else Mark(st, sid, rec.(status := if report.IsRunning? then Running else Stopped))
  }

  function Apply(st: State, op: Op): State
    requires Enabled(st, op)
  {
    match op
    case Create(sid, plan, spawn, released) => CreatePath(st, sid, plan, spawn, released)
    case Start(sid, report, del, spawn) => StartPath(st, sid, report, del, spawn)
    case Stop(sid, report, del, released) => StopPath(st, sid, report, del, released)
    case Restart(sid, report, del, spawn, halt, launch) => RestartPath(st, sid, report, del, spawn, halt, launch)
    case Update(sid, halt, del, spawn, released) => UpdatePath(st, sid, halt, del, spawn, released)
    case Erase(sid, del, released) => ErasePath(st, sid, del, released)
    case UserErased(sid) => st.(servers := st.servers - {sid})
    case ObservedStop(sid, report, del, released) => ObservedStopPath(st, sid, report, del, released)
    case LogoutStop(sid, report, del, released) => LogoutStopPath(st, sid, report, del, released)
    case BlindStop(sid, del, released) => BlindStopPath(st, sid, del, released)
    case ScheduledStart(sid, report, del, spawn, launch) =>
      if report.IsStopped? then BackgroundStart(st, sid, del, spawn, launch) else st
    case ScheduledStop(sid, del, released) => ScheduledStopPath(st, sid, del, released)
    case ScheduledRestart(sid, del, spawn, halt, launch) => ScheduledRestartPath(st, sid, del, spawn, halt, launch)
    case HealthRestart(sid, del, spawn, halt, launch) => HealthRestartPath(st, sid, del, spawn, halt, launch)
    case BulkStart(sid, del, spawn, launch) => BackgroundStart(st, sid, del, spawn, launch)
    case BulkStop(sid, halt) => BulkStopPath(st, sid, halt)
    case BulkErase(sid, del) => BulkErasePath(st, sid, del)
    case BulkRelease(sid) => Release(st, sid).(pending := st.pending - {sid})
    case BulkReleaseFails(sid) => st.(pending := st.pending - {sid})
    case SyncStatus(sid, report) => SyncPath(st, sid, report)
    case Reconcile(aged) =>
      st.(rows := st.rows - (set d | d in st.rows && d in aged && Stale(st, st.rows[d])))
    case EditPlan(plan, g) => st.(plans := st.plans[plan := g])
    case DropPlan(plan) => st.(plans := st.plans - {plan})
    case ContainerExits(sid) => st.(containers := st.containers[sid := st.containers[sid].(up := false)])
    case ContainerVanishes(sid) => st.(containers := st.containers - {sid})
  }

  function Erased(st: State, sid: Sid, released: bool): State {
    GiveBack(st.(servers := st.servers - {sid}), sid, released)
  }

  /** reconcile() drops an old row whose server is gone, not running, or records no GPU. */
  predicate Stale(st: State, sid: Sid) {
    sid !in st.servers || st.servers[sid].status.Stopped? || st.servers[sid].gpus == 0
  }

  predicate Honest(d: Delete) { d.reported ==> d.gone }

  predicate Enabled(st: State, op: Op) {
    match op
    case Create(sid, plan, _, _) =>
      && sid !in st.servers && sid !in st.containers && sid !in st.pending && Held(st.rows, sid) == {}
      && plan in st.plans
    case Start(sid, report, _, _) => sid in st.servers && Truthful(st, sid, report)
    case Stop(sid, report, del, _) => sid in st.servers && Truthful(st, sid, report) && Honest(del)
    case Restart(sid, report, _, _, halt, launch) =>
      sid in st.servers && Truthful(st, sid, report) && (halt.reported ==> halt.down)
    case Update(sid, _, del, _, _) => sid in st.servers && Honest(del)
    case Erase(sid, del, _) => sid in st.servers && Honest(del)
    case UserErased(sid) => sid in st.servers
    case ObservedStop(sid, report, del, _) => sid in st.servers && Truthful(st, sid, report) && Honest(del)
    case LogoutStop(sid, report, del, _) => sid in st.servers && Truthful(st, sid, report) && Honest(del)
    case BlindStop(sid, del, _) => sid in st.servers && Honest(del)
    case ScheduledStart(sid, report, _, _, _) => sid in st.servers && Truthful(st, sid, report)
    case ScheduledStop(sid, del, _) => sid in st.servers && Honest(del)
    case ScheduledRestart(sid, _, _, halt, _) => sid in st.servers && (halt.reported ==> halt.down)
    case HealthRestart(sid, _, _, _, _) => sid in st.servers && st.servers[sid].status.Running?
    case BulkStart(sid, _, _, _) => sid in st.servers
    case BulkStop(sid, halt) => sid in st.servers && (halt.reported ==> halt.down)
    case BulkErase(sid, del) => sid in st.servers && Honest(del)
    case BulkRelease(sid) => sid in st.pending
    case BulkReleaseFails(sid) => sid in st.pending
    case SyncStatus(sid, report) => sid in st.servers && Truthful(st, sid, report)
    case Reconcile(_) => st.pool != []
    case EditPlan(plan, _) => plan in st.plans
    case DropPlan(plan) => plan in st.plans
    case ContainerExits(sid) => sid in st.containers
    case ContainerVanishes(sid) => sid in st.containers
  }
}
