# NukeLab: protocols of the server platform

NukeLab starts per-user server containers, hands out GPU devices and bills for running time. This
project models the parts of it that depend on several processes, or several code paths, keeping
shared state consistent, and proves what holds over whole runs of them.

| file | what it models |
|---|---|
| `ImageIds.dfy`, `Toolchain.dfy`, `ToolchainTheorems.dfy`, `ToolchainProgress.dfy` | populating a shared toolchain volume: a container name as lock, stale locks, double-checked reads, wipe, copy and stamp as separate steps, crashes anywhere |
| `Fleet.dfy`, `FleetSafety.dfy`, `FleetService.dfy`, `FleetPolicy.dfy`, `AdminBulk.dfy` | the paths that create, start, stop, restart, update or delete a server or its owner, against the container runtime and the table of exclusive GPU devices |
| `CircuitBreaker.dfy`, `StampedeCache.dfy`, `StampedeProgress.dfy` | the Redis cache: breaker, stampede lock, get-or-set under lost answers and crashes |
| `RateLimiter.dfy` | the sidecar's per-address limiter |
| `RefreshTokens.dfy`, `RefreshTokenTheorems.dfy`, `ApiTokens.dfy` | token tables: indexed lookup against full scan, the session cap, rotation, the batched purge |
| `Queue.dfy`, `QueueDrain.dfy` | the queued-server pass: termination, devices, charges |
| `Billing.dfy` | the quarter-hour billing pass and reconciliation |
| `IdleShutdown.dfy` | activity from the sidecar to the idle-shutdown pass |
| `KeyRotation.dfy` | signing-key rotation and retirement, step by step, with signers and verifiers in between |
| `Common.dfy` | shared types |

Code that works through fields and loops is written as classes and methods proved against
functions on values; protocols between processes are state machines over their single steps. A
theorem over runs quantifies over every sequence of enabled steps. Safety is proved in the `Safety`
and `Theorems` files; what callers get when nothing stands in the way in the `Progress` and
`Service` files.

## What turned out not to hold

The code is modelled as it is. Where a property one would expect fails, there is a lemma with the
failing run and a lemma saying exactly when the property holds.

- A volume whose stamp matches over an incomplete copy is served as it is (`ServesOnlyGoodIff`); a
  population killed during its wipe leaves such a volume (`KilledWipeLeavesUntrustworthy`).
- Manifest and stamp are read by two commands, so the fast path can return the previous image's
  manifest (`ReturnsImageManifestIff`).
- Device exclusivity breaks when a plan's GPU limit moves between zero and positive, when a server is
  started between a bulk stop and the batch's release, or when a user is deleted whose container still
  runs (`FleetPolicy.SafeExactlyWhenCareful`).
- What a caller of the toolchain was given is wiped or incomplete when a holder is late, a re-check
  fails under the lock or a copy fails (`ReturnedMeansGoodIff`).
- Two callers rebuild one cache key when a build outlives its lock (`OneRebuilderIff`).
- The breaker's class comment promises one probe when half open; `can_execute` admits every call
  until an outcome is recorded, so it holds of a trace exactly when nobody else asks (`TwoProbes`, `OneProbeIff`).
- API-token rows without a prefix are seen by one lookup and not by the other (`PrefixLookupAgreesIff`).
- A device listed twice in the pool setting makes the queue loop run for ever (`Livelock`).
- A balance above zero but below every tick is neither billed nor stopped, in any pass, and no other
  user with a priced server is passed over (`StuckThroughPasses`, `PassLeavesUserIff`).
- Two token creations that overlap exceed the session cap unless the user had at most eight
  (`OverlapBreaksCap`, `OverlapKeepsCapIff`); rotations of one token that overlap all succeed, so it is
  used once exactly when at most one of them verifies it before the first revocation (`SingleUseIff`).
- Noting sidecar activity can discard the start time as fallback (`FallbackLost`, `FallbackLostIff`).
  The rows concerned have a start time and no stored activity, which creation no longer leaves behind.
- The script's comment and the key ring promise rotation without downtime. While the private key is
  set aside no process accepts any token (`NothingAcceptedWhileStaged`); and a crash at any point
  before the end, a reload between the new private key and the retired file, or a rotation between the
  two reloads of a signature leaves live tokens refused (`KeyRotation.SafeExactlyWhenCareful`).

## Model

| member | source | states |
|---|---|---|
| ImageIds.DigestSplits | backend/app/container/docker_driver.py:849-860 | the compared digest is what follows the last colon: it contains none, and the identifier is it or ends in a colon and it |
| ImageIds.MatchIgnoresEnginePrefix | backend/app/container/docker_driver.py:849-860 | image ids match exactly when their digests agree, whatever prefixes two engines add; a bare digest matches a prefixed one |
| Toolchain.AtMostOneCritical | backend/app/container/docker_driver.py:862-909 | under the lock invariant two callers in the critical section (or whose helper still works) are the same caller |
| Toolchain.LockStep | backend/app/container/docker_driver.py:862-909 | every step of every caller keeps the lock invariant: removal of a stale lock and release act on the inspected container, never on its successor |
| Toolchain.InvStep | backend/app/container/docker_driver.py:911-1042 | every step keeps the joint lock and volume invariant: success is reported only over a complete stamped copy, and wiping starts only over one that is not |
| Toolchain.GoodStep | backend/app/container/docker_driver.py:911-978 | no step of anyone changes a volume that is a complete, matching copy |
| ToolchainTheorems.MutualExclusion | backend/app/container/docker_driver.py:862-909 | in every interleaving of callers, crashes, failed reads and copies and stale removals, whatever image and volume, at most one caller is critical, and the lock that exists is its own |
| ToolchainTheorems.ExclusionIff | backend/app/container/docker_driver.py:862-909 | of the assumptions a run may break, exclusion needs holders to be in time, and only that |
| ToolchainTheorems.ReturnedMeansCompleteForever | backend/app/container/docker_driver.py:993-1042 | once a call has returned normally the volume is complete and no later step of any caller changes it |
| ToolchainTheorems.ReturnedMeansGoodIff | backend/app/container/docker_driver.py:911-1042 | that the volume is good whenever some call has returned rests on all three of them: it holds in every run iff none is broken |
| ToolchainTheorems.LateHolderUndoesReturned | backend/app/container/docker_driver.py:894-909 | an evicted holder returns and its successor then wipes the volume it was given |
| ToolchainTheorems.PopulatedOnce | backend/app/container/docker_driver.py:1003-1037 | at most one population reaches the stamp, only if the volume was not good at the start, and a caller reporting a population is that one |
| ToolchainTheorems.Replace | backend/app/container/docker_driver.py:929-978 | an undisturbed helper ends with a complete copy and the image's stamp |
| ToolchainTheorems.ServesOnlyGoodIff | backend/app/container/docker_driver.py:1003-1016 | only good volumes are served in every run iff the starting volume is not a matching stamp over an incomplete copy |
| ToolchainTheorems.TornRead | backend/app/container/docker_driver.py:770-829 | two callers and an old readable manifest: a run in which one caller returns the old manifest |
| ToolchainTheorems.ReturnsImageManifestIff | backend/app/container/docker_driver.py:770-829 | every returned manifest is the image's own iff the manifest on the volume before the run was it or was unreadable |
| ToolchainTheorems.KilledWipeLeavesUntrustworthy | backend/app/container/docker_driver.py:929-978 | a population killed during its wipe can leave the previous image's stamp over an incomplete tree |
| ToolchainTheorems.TimelyUnlessTick | backend/app/container/docker_driver.py:862-909 | only the passing of time makes a holder late |
| ToolchainTheorems.LateHolderLosesExclusion | backend/app/container/docker_driver.py:894-909 | from every starting volume and lock, a holder that outlives the timeout is joined by a second caller |
| ToolchainTheorems.FailedRecheckWipesServedVolume | backend/app/container/docker_driver.py:1019-1031 | a read error swallowed under the lock wipes a volume already handed out |
| ToolchainTheorems.FailedCopyIsServed | backend/app/container/docker_driver.py:934-937 | a copy that fails is stamped, returned, and matches for later callers |
| ToolchainTheorems.WithoutIdNothingIsReused | backend/app/container/docker_driver.py:849-860 | without an image id every call that succeeds has populated anew, over whole runs |
| ToolchainProgress.NobodyFails | backend/app/container/docker_driver.py:993-1042 | in every admissible run without a missing image, engine error, failed read or failed wait, whatever the interleaving and the crashes, no call fails |
| ToolchainProgress.TimedOutOnlyAfterTimeout | backend/app/container/docker_driver.py:875-897 | a call gives up only more than fifteen minutes after a moment at which it was still on its first read |
| ToolchainProgress.GoodVolumeIsReused | backend/app/container/docker_driver.py:1003-1016 | over a good volume, in every run without such troubles, nobody takes the lock, nothing is written, and every call that ends returned the image's manifest |
| ToolchainProgress.WaiterReturns | backend/app/container/docker_driver.py:1019-1042 | a run of two callers on an empty volume in which the second, which waited, returns the image's manifest and only the first populated |
| ToolchainProgress.StaleLockDoesNotBlock | backend/app/container/docker_driver.py:894-909 | a lock older than fifteen minutes is taken over: a run in which the caller populates, returns and leaves no lock |
| ToolchainProgress.WaiterTimesOut | backend/app/container/docker_driver.py:875-909 | a lock that is not too old is respected: a run in which the waiter times out, lock and volume unchanged |
| ToolchainProgress.RefusedCallFails | backend/app/container/docker_driver.py:876-892 | a call without an image, or whose lock fails for another reason than its name, ends failed and touches nothing |
| FleetSafety.InvIsExclusive | backend/alembic/versions/9f2c7a4e1b63_gpu_allocations.py:34 | if every running GPU container's devices are rows of its own server, no two running containers share a device |
| FleetSafety.OthersUntouched | backend/app/api/servers.py:86-200 | a path for one server leaves every other server's record, container and rows alone |
| FleetSafety.InvStep | backend/app/api/servers.py:1041-1617 | every path, with every answer the runtime may give, keeps the ownership invariant, in careful runs |
| FleetSafety.ExclusiveThroughout | backend/app/api/servers.py:86-200 | over whole careful runs of all paths, running containers never share a device and hold the rows of the devices they carry |
| FleetSafety.StopsExactlyWhenConfirmed | backend/app/tasks.py:308-342 | a stop clears the record, and frees all devices unless the release itself fails, iff the container was absent, seen stopped or reported deleted (and, for a scheduled stop, the release worked); otherwise record and rows are unchanged |
| FleetSafety.DismissedOnlyWhenDown | backend/app/api/servers.py:1306-1404 | whatever the careful step, a record is stopped, loses its container or vanishes only if nothing of the server runs afterwards, and rows are lost only if no container with devices runs |
| FleetSafety.StartDismissesNobody | backend/app/api/servers.py:1041-1304 | no start or restart, failed or not, marks a server stopped, forgets its container or takes its rows |
| FleetService.ReserveIff | backend/app/services/gpu_allocator.py:55-91 | with no device listed twice a reservation succeeds iff enough devices of the pool have no row; it adds exactly that many of them, the first in pool order, for the server and changes no other row |
| FleetService.EnsureIff | backend/app/api/servers.py:167-188 | devices are ensured iff none are needed, some are held or enough are free; exactly the missing ones are added |
| FleetService.StartServes | backend/app/api/servers.py:1096-1304 | with devices to be had and a spawn that works a start ends running, on record, on its own rows, with exactly the plan's number of devices if it held none; it does nothing if the container runs, or if there is neither container nor plan |
| FleetService.StartRefused | backend/app/api/servers.py:1117-1150 | without devices a start changes nothing but the removal of a stopped container |
| FleetService.StartFailureKeepsRecord | backend/app/api/servers.py:1117-1215 | a start whose spawn fails leaves the record as it was; the stopped container it deleted is gone |
| FleetService.CreateServes | backend/app/api/servers.py:655-690 | a creation with devices to be had ends served and recorded with its plan and count; with too few it changes nothing |
| FleetService.CreateFailsCleanly | backend/app/api/servers.py:655-690 | a creation whose spawn fails leaves no record, no running container and, once released, the table as it was |
| FleetService.RestartServes | backend/app/api/servers.py:1458-1551 | a restart of a GPU server, or of one whose status is unknown, ends served; any other restarts its container in place |
| FleetService.RestartRefused | backend/app/api/servers.py:1469-1505 | without devices a restart of a GPU server leaves it without its container |
| FleetService.RestartInPlaceStepByStep | backend/app/api/servers.py:1537-1551 | a restart in place launches only after a reported stop and marks only after a reported launch |
| FleetService.BulkStartServes | backend/app/api/admin.py:415-435 | a bulk start serves a server recorded with GPUs and launches any other in place |
| FleetService.BackgroundRefused | backend/app/api/servers.py:109-165 | bulk starts, scheduled and health restarts look for devices before they touch anything, and change nothing without them |
| FleetService.RespawnFailureKeepsRecord | backend/app/api/servers.py:109-165 | a respawn whose spawn fails leaves the record as it was, its old container deleted |
| FleetService.NothingWithoutContainer | backend/app/api/admin.py:415-443 | paths that work on a container change nothing for a server without one |
| FleetService.UnreportedLaunchIsNotMarked | backend/app/api/admin.py:430-434 | a launch in place that is not reported marks nothing |
| FleetService.ScheduledStartLikeBulk | backend/app/services/schedule_service.py:190-230 | a scheduled start of a container seen stopped is a bulk start; any other does nothing |
| FleetService.ScheduledRestartServes | backend/app/services/schedule_service.py:265-300 | a scheduled restart of a running server serves it or restarts it in place, by its recorded GPU count |
| FleetService.HealthRestartServes | backend/app/services/health_check_service.py:166-186 | so does a restart after failed health checks |
| FleetService.UpdateServes | backend/app/api/servers.py:1958-2069 | an update whose delete, if needed, and spawn work ends served |
| FleetService.UpdateFailsCleanly | backend/app/api/servers.py:2070-2080 | an update whose spawn fails ends recorded stopped, without container and, once released, without rows |
| FleetService.BulkStopMarks | backend/app/api/admin.py:436-443 | a reported bulk stop marks the record and queues the release, the container staying there, down; an unreported one marks nothing |
| FleetService.BulkEraseDrops | backend/app/api/admin.py:444-452 | a bulk deletion drops the record and queues the release exactly when there is no container or its delete is reported |
| FleetService.SyncTellsTruth | backend/app/api/servers.py:855-870 | listing marks a server running iff its container runs, and leaves one of unknown status alone |
| FleetService.ExitIsNoticed | backend/app/api/servers.py:855-870 | a container that exits on its own is marked stopped by the next listing and keeps its rows |
| FleetService.WithoutPlanByRecord | backend/app/api/servers.py:86-88 | once its plan is gone a server is counted by its record |
| FleetService.ReconcileKeepsExactly | backend/app/services/gpu_allocator.py:109-144 | a row survives iff it is young or its server is there, running and recorded with GPUs; nothing else changes |
| FleetPolicy.GpuRemovedShares | backend/app/api/servers.py:1458-1551 | setting a plan's GPU limit to zero lets a restart reuse a container whose devices went to another server |
| FleetPolicy.GpuAddedShares | backend/app/api/admin.py:415-435 | a server created before its plan had GPUs is plain-started in bulk on devices given away |
| FleetPolicy.EarlyStartShares | backend/app/api/admin.py:436-469 | a start between a bulk stop and the deferred release runs on rows that are then released |
| FleetPolicy.UserErasedShares | backend/app/services/user_service.py:349-367 | deleting a user drops the records of running containers; reconciliation then frees their devices for others |
| FleetPolicy.SafeExactlyWhenCareful | backend/app/services/gpu_allocator.py:109-144 | exclusivity holds in every run iff none of these four habits is allowed |
| AdminBulk.Console.Entry | backend/app/api/admin.py:410-458 | one entry is that step of the fleet; it succeeds iff there is nothing to do or the pool and the runtime granted it; it touches no other server, takes no rows, and a stop or delete reported done is down |
| AdminBulk.Console.Releases | backend/app/api/admin.py:463-471 | the deferred releases keep the invariant and, when none fails, leave the released servers without rows |
| AdminBulk.Console.BulkAction | backend/app/api/admin.py:386-471 | the request goes through one fleet step per known id, lists the successes in order and the failures; it keeps exclusivity and leaves servers not named alone; every server reported stopped or deleted is down |
| CircuitBreaker.CacheCircuitBreaker.RecordFailure | backend/app/core/cache.py:107-115 | counts and stamps the failure and opens at the threshold; keeps "closed exactly when failures are below the threshold"; a failed half-open probe reopens |
| CircuitBreaker.CacheCircuitBreaker.RecordSuccess | backend/app/core/cache.py:101-105 | resets to closed with no failures |
| CircuitBreaker.CacheCircuitBreaker.CanExecute | backend/app/core/cache.py:117-127 | admits iff closed, half open, or open for longer than the recovery time, which makes it half open; keeps the invariant |
| CircuitBreaker.OpenBound | backend/app/core/cache.py:107-127 | from an open breaker n attempts take more than n recovery periods |
| CircuitBreaker.AttemptBound | backend/app/core/cache.py:94-127 | sequential callers over a failing Redis make at most threshold attempts plus one per recovery period of the span |
| CircuitBreaker.ProbesCountAsks | backend/app/core/cache.py:117-155 | in any interleaving of calls, a half-open phase admits the call that opened it and every other that asks before the next outcome |
| CircuitBreaker.OneProbeIff | backend/app/core/cache.py:86-127 | a trace has at most one probe per half-open phase iff nobody asks between a half-opening question and the next outcome |
| CircuitBreaker.TwoProbes | backend/app/core/cache.py:117-127 | for every recovery time, two callers asking at one instant after it are both admitted |
| CircuitBreaker.HalfOpeningsApart | backend/app/core/cache.py:107-127 | whatever overlaps and whatever the outcomes, half-open phases begin more than a recovery period apart |
| StampedeCache.BoundedStaleness | backend/app/core/cache.py:270-329 | a returned value was built during this call, or was stored by a lock-holding call less than its ttl before it was read |
| StampedeCache.LosersNeverWrite | backend/app/core/cache.py:296-329 | whoever writes the key had won the lock |
| StampedeCache.OneRebuilder | backend/app/core/cache.py:296-329 | if build, store and delete of the lock fit in its life, at most one caller is in the acquired branch and the lock it deletes is its own |
| StampedeCache.OneRebuilderIff | backend/app/core/cache.py:296-329 | at most one caller is in the acquired branch in every run iff no run may outlive its lock there |
| StampedeCache.CachedDataAge | backend/app/core/cache.py:270-329 | then cached data is younger than ttl plus lock ttl, counted from the start of its build |
| StampedeCache.SlowBuilderLetsTwoIn | backend/app/core/cache.py:296-329 | a build that outlives its lock ends with two callers in the acquired branch |
| StampedeProgress.HitIsReturned | backend/app/core/cache.py:292-326 | in every run, a call whose read was answered with a live, non-empty, intact entry has returned that item |
| StampedeProgress.OwnBuildMeansMisses | backend/app/core/cache.py:270-329 | so a call that returns its own build had no such read, however often it looked |
| StampedeProgress.NoneIsNeverAHit | backend/app/core/cache.py:292-326 | a cached None is never returned as a hit |
| StampedeProgress.CorruptIsDropped | backend/app/core/cache.py:158-201 | a corrupt entry is deleted by the read that finds it, and its reader goes on as after a miss |
| StampedeProgress.LosersPollFiveTimes | backend/app/core/cache.py:318-329 | a call that builds for itself looked once if it won the lock and six times if it lost; only a raising build raises |
| StampedeProgress.BuildAndStore | backend/app/core/cache.py:296-316 | from any state without entry and lock, an undisturbed caller stores its item for its ttl, leaves no lock and returns it |
| StampedeProgress.SecondCallerHits | backend/app/core/cache.py:270-329 | from every fresh state a run in which the second caller returns the first's item in the last second of its ttl |
| StampedeProgress.RebuiltAfterInvalidation | backend/app/core/cache.py:270-329 | from every fresh state a run in which a caller after an invalidation takes the lock and rebuilds |
| StampedeProgress.LostAnswerHoldsLock | backend/app/core/cache.py:296-329 | a lock whose answer was lost keeps everyone polling; the next caller builds iff its life is over |
| RateLimiter.Limiter.Allow | services/auth-sidecar/main.go:168-189 | a bucket is refilled when more than the window has passed since its reset; the call is granted while tokens remain and takes one; no other bucket changes |
| RateLimiter.TrafficIsIndependent | services/auth-sidecar/main.go:168-189 | an address is granted what its own requests alone would get |
| RateLimiter.BetweenResets | services/auth-sidecar/main.go:177-188 | between resets a bucket grants at most its tokens |
| RateLimiter.LimitOnEveryStretch | services/auth-sidecar/main.go:147-189 | in every stretch no longer than the window, of every trace of a new limiter, one address gets at most one less than twice the limit |
| RateLimiter.CeilingIsReached | services/auth-sidecar/main.go:168-189 | for every limit and window a new limiter grants exactly that much in some stretch |
| RefreshTokens.Store.OldestFirst | backend/app/api/auth.py:155-163 | lists exactly the user's unrevoked rows, each once, oldest first |
| RefreshTokens.Store.EnforceLimit | backend/app/api/auth.py:153-169 | revokes a choice of exactly the surplus oldest sessions and nothing else |
| RefreshTokens.Store.Create | backend/app/api/auth.py:172-203 | adds one row after making room; with a new secret in a well-formed table every answer to it is this session before `expires` and a refusal from then on |
| RefreshTokens.Store.Verify | backend/app/api/auth.py:206-243 | an accepted row is unrevoked, verifies, and has this lookup and has not expired at the first reading, or has none and has not expired at the second; refusal means there is no such row; several lookup rows raise |
| RefreshTokens.Store.Refresh | backend/app/api/auth.py:558-597 | rejection changes nothing; an inactive user's token is revoked without a new one; otherwise the new token is accepted until it expires and the old one never again |
| RefreshTokens.Store.Purge | backend/app/api/auth.py:272-301 | the batches end; a row goes iff it expired before the last batch's clock or was revoked more than thirty days before the start; returns their number, one batch more than the full ten thousands in it |
| RefreshTokenTheorems.LookupRefinesScan | backend/app/api/auth.py:206-243 | lookup plus fallback accepts the row a scan of all live rows accepts, between the scans at its two clock readings |
| RefreshTokenTheorems.CapAfterIssue | backend/app/api/auth.py:150-203 | after a creation a user has min(n + 1, 10) sessions, the evicted ones are gone, other users' sessions are unchanged |
| RefreshTokenTheorems.OldestGiveWay | backend/app/api/auth.py:164-169 | an evicted session is at least as old as every kept one |
| RefreshTokenTheorems.OverlapKeepsCapIff | backend/app/api/auth.py:153-203 | two creations whose evictions were chosen before either was written keep the cap iff the user had at most eight sessions |
| RefreshTokenTheorems.OverlapBreaksCap | backend/app/api/auth.py:153-203 | nine sessions and two such creations make eleven |
| RefreshTokenTheorems.SingleUseIff | backend/app/api/auth.py:558-597 | however rotations of one live token interleave, as many succeed as verified it before the first revocation; it is used once iff that is at most one |
| RefreshTokenTheorems.RotationKeepsOthers | backend/app/api/auth.py:571-588 | with at most ten sessions a rotation swaps one for one, evicts nobody and changes no other row |
| RefreshTokenTheorems.SoundThroughout | backend/app/api/auth.py:150-301 | in every reachable table nobody has more than ten sessions and the lookup answers as the scan does |
| RefreshTokenTheorems.AcceptedThroughout | backend/app/api/auth.py:172-243 | over every run, until it is rotated, logged out, evicted or purged a session is accepted before its expiry, for its user, and refused from then on |
| RefreshTokenTheorems.EndedNeverVerifies | backend/app/api/auth.py:150-301 | a session ended in any of these four ways is never accepted again, whatever follows |
| RefreshTokenTheorems.PurgeSparesSessions | backend/app/api/auth.py:272-301 | a purge whose clock has not passed the expiry does not touch an unrevoked session |
| RefreshTokenTheorems.RotatedNeverVerifies | backend/app/api/auth.py:558-597 | after a rotation, whatever follows, the presented token is never accepted again |
| RefreshTokenTheorems.PurgeIsInvisible | backend/app/api/auth.py:206-243 | deleting stale rows changes no answer at or after the deletion's clock |
| ApiTokens.Store.Authenticate | backend/app/api/auth.py:349-391 | the verdict is that of a usable row with this prefix and secret; only an accepted, unexpired row's use is counted |
| ApiTokens.Store.Resolve | backend/app/api/auth.py:860-875 | the verdict is that of a usable row with this secret |
| ApiTokens.PrefixLookupAgreesIff | backend/app/api/auth.py:349-391 | for every token, clock and user directory the two lookups agree, iff every usable row carries the prefix of its secret |
| ApiTokens.ScanGrantsIff | backend/app/api/auth.py:860-875 | lets in exactly the active owner of an active, unrevoked, unexpired row with this secret, and says expired iff such a row has run out |
| ApiTokens.PrefixGrantsIff | backend/app/api/auth.py:349-391 | so does the prefix lookup, of rows that carry the first sixteen characters |
| ApiTokens.LegacyRowIsMissed | backend/app/models/api_token.py:23 | a usable row without a prefix makes them disagree |
| ApiTokens.CreationKeepsAgreement | backend/app/api/tokens.py:118-137 | creating a token keeps the two lookups in agreement |
| ApiTokens.RegenerationKeepsAgreement | backend/app/api/tokens.py:235-262 | so does regenerating one; the old secret then matches nothing and the new one exactly its row |
| Queue.Pass.NextInQueue | backend/app/services/resource_pool_service.py:144-157 | a pending entry that fits, of the highest priority and then the oldest; none exactly when none fits |
| Queue.ReserveThenRelease | backend/app/services/gpu_allocator.py:60-107 | a new key holds exactly what was reserved for it, and releasing it restores the table |
| Queue.Pass.TryStart | backend/app/tasks.py:692-852 | one iteration ends as its fate says; after any failure the device table is what it was before |
| QueueDrain.InvStep | backend/app/tasks.py:692-852 | an iteration keeps the accounts of entries, servers, rows, charges and balances |
| QueueDrain.Process | backend/app/tasks.py:671-855 | the pass ends with no fitting entry left; its turns follow each other from the opening, each entry's turn came by priority and age, and it started iff it deserved to; every entry is untouched, failed without a server, or started with one server, its devices and its one charge; the free list lost exactly what the started entries took |
| QueueDrain.FateByFields | backend/app/tasks.py:697-834 | an entry is launched iff plan active, user there and active, quota and balance allow it, enough devices are free, and payment and spawn work; it fails after the reservation iff only these last two do not |
| QueueDrain.StartedIffDeserved | backend/app/tasks.py:692-852 | a pending entry ends started iff it had a turn at which it met these conditions |
| QueueDrain.CancelledAfterAnHour | backend/app/tasks.py:671-690 | an entry is cancelled iff it has been pending for more than an hour |
| QueueDrain.DevicesOnlyWithStarted | backend/app/tasks.py:755-767 | every device taken in the pass is held by the one server of an entry that started |
| QueueDrain.HeldPlusFree | backend/app/services/gpu_allocator.py:50-58 | held and free devices make up the pool |
| QueueDrain.AlwaysEnds | backend/app/tasks.py:691-695 | with no device listed twice, no queue keeps the loop going for ever |
| QueueDrain.Livelock | backend/app/services/gpu_allocator.py:80-88 | for every pool listing a device twice, two entries undo each other's failure for ever |
| Billing.Tick | backend/app/tasks.py:479-482 | at least one credit, and four ticks differ from the hourly cost by at most three, by none when it divides by four, and exceed it only when a tick is one credit |
| Billing.Biller.Consume | backend/app/services/credit_service.py:98-180 | takes the amount and adds it to the server's total, or has no effect |
| Billing.Biller.Reconcile | backend/app/services/credit_service.py:282-345 | takes what is still owed of the exact cost, up to the balance |
| Billing.Biller.Bill | backend/app/tasks.py:472-553 | the pass is the fold of one turn per listed server, and its counts are those of billed and stopped turns |
| Billing.PassConserves | backend/app/tasks.py:529-540 | per user, what the balance loses is what the totals of the user's servers gain, and no balance is overdrawn |
| Billing.OneTurnEach | backend/app/tasks.py:475-551 | each server ends unchanged, billed one tick, or stopped without charge |
| Billing.TurnByFields | backend/app/tasks.py:475-551 | a turn bills a tick iff the server is priced and the balance covers it, stops iff the balance is used up and stopping is on and works, and else changes nothing |
| Billing.PassIsBooked | backend/app/services/credit_service.py:98-180 | the ledger only grows, its new entries sum up to every change of balance, and each records the balance it left |
| Billing.PassIsAttributed | backend/app/tasks.py:529-540 | every server's total rises by what the new entries that name it took |
| Billing.ExactRate | backend/app/services/credit_service.py:306-312 | the exact cost is the hourly rate for the time run, rounded down but not below one credit; an hour costs the rate |
| Billing.ReconcileCovers | backend/app/services/credit_service.py:312-345 | after reconciling the exact cost is covered or the balance is used up, and no more than the cost is taken |
| Billing.DepletionTakesNothing | backend/app/services/credit_service.py:312-345 | the reconciliation of a depletion stop takes nothing |
| Billing.ReconcileSettles | backend/app/services/credit_service.py:306-345 | reconciling conserves credits, never overdraws, leaves nothing owed, and settles the exact cost if credits remain |
| Billing.FreeRideIff | backend/app/tasks.py:490-551 | with stopping on and working, a turn leaves a server running unbilled iff the balance is above zero and below its tick |
| Billing.PassLeavesUserIff | backend/app/tasks.py:472-553 | with all of a user's priced servers listed, a pass leaves the user's balance and servers unchanged iff the user has none or has a positive balance below every tick |
| Billing.StuckThroughPasses | backend/app/tasks.py:475-551 | such a user's servers and balance are the same after every pass |
| IdleShutdown.Sidecar.Handle | services/auth-sidecar/main.go:506-561 | 200 exactly for requests that qualify, 429 exactly for limited ones, and the activity record follows the requests that count |
| IdleShutdown.ExpiredCountsButFails | services/auth-sidecar/main.go:337-348 | an expired token never gets in (section 4.1.4 of RFC 7519) and counts as activity iff authentic for this server |
| IdleShutdown.RecordedIsLatest | services/auth-sidecar/main.go:141-144 | the record lies between the truncated times of any counting request and of the last request |
| IdleShutdown.Watchdog.Visit | backend/app/tasks.py:283-342 | stops exactly when the newest signal is before the cutoff and the stop is confirmed, and notes the newer activity |
| IdleShutdown.Watchdog.Enforce | backend/app/tasks.py:260-342 | each listed server gets exactly its own turn; others are unchanged |
| IdleShutdown.StoppedIff | backend/app/tasks.py:283-342 | a running server is stopped iff idle shutdown is on, it has a signal, all its signals are older than the timeout, and it has no container, one seen stopped, or one seen running and deleted; an unknown status or failed delete leaves it alone |
| IdleShutdown.TrafficKeepsServer | backend/app/tasks.py:274-306 | traffic a second or more after the cutoff, seen by the poll, keeps the server running |
| IdleShutdown.TruncationStops | services/auth-sidecar/main.go:141-144 | less than a second is not enough: for every counting request with a fraction of a second there is a pass at which it is too old once truncated, and a server without newer signals is stopped |
| IdleShutdown.StoredNeverGoesBack | backend/app/tasks.py:298-301 | the stored activity time never decreases |
| IdleShutdown.FallbackLost | backend/app/tasks.py:293-301 | a legacy row with a start time only loses it to a truncated request at the start |
| IdleShutdown.FallbackLostIff | backend/app/tasks.py:293-301 | what the next pass goes by decreases iff no activity was stored and the sidecar reports a time before the start |
| KeyRotation.SecretsDir.CleanupRetired | backend/scripts/rotate_user_auth_key.py:103-116 | a retired key stays iff it is within the grace period or cannot be removed; the rest are removed and counted, and the active pair is left alone |
| KeyRotation.SecretsDir.Rotate | backend/scripts/rotate_user_auth_key.py:134-173 | ends with the new pair active and the old public key retired now |
| KeyRotation.DiskThroughout | backend/scripts/rotate_user_auth_key.py:134-173 | the invariant of disk, script and tokens holds in every schedule in which the script, once it has written, finishes, however processes load and sign meanwhile |
| KeyRotation.LiveKeysAreKept | backend/scripts/rotate_user_auth_key.py:103-173 | at every moment of such a schedule a live token's public key is on disk or in the hands of the script about to write it |
| KeyRotation.DiskSafeExactlyWhenFinished | backend/scripts/rotate_user_auth_key.py:134-173 | live tokens' keys are on disk whenever the script rests, in every schedule, iff it never dies after its first write |
| KeyRotation.NothingAcceptedWhileStaged | backend/app/core/token_signing.py:58-72 | in every schedule, while the private key is set aside no process accepts any token |
| KeyRotation.InvThroughout | backend/app/core/token_signing.py:105-152 | in careful schedules a ring loaded for the current private key also has every public key on disk, signatures under way have read the current key's id, and tokens name the key that signed them |
| KeyRotation.CrashStagedRefusesAll | backend/scripts/rotate_user_auth_key.py:144-149 | a crash with the private key set aside leaves every live token refused |
| KeyRotation.CrashPrivateLosesKey | backend/scripts/rotate_user_auth_key.py:99-100 | a crash between the two new files leaves later tokens without a public key on disk |
| KeyRotation.CrashPublicLosesKey | backend/scripts/rotate_user_auth_key.py:152-163 | a crash between the new public key and the retired file loses the key of live tokens |
| KeyRotation.LoadPrivateMislabels | backend/app/core/token_signing.py:105-152 | a process that loads between the two new files signs tokens that nobody accepts after the rotation |
| KeyRotation.LoadPublicForgetsKey | backend/app/core/token_signing.py:105-152 | a reload just before the retired file is written refuses live tokens although their key is on disk |
| KeyRotation.RotateMidSignatureMislabels | backend/app/core/token_signing.py:209-240 | a rotation between reading the key id and reading the key yields a live token refused by everyone |
| KeyRotation.MislabelledIff | backend/app/core/token_signing.py:209-240 | a finished signature is accepted by some process in some state iff the id it read is that of the key it signs with |
| KeyRotation.SignMidwayMislabels | backend/app/core/token_signing.py:209-240 | a token signed between the two new files is accepted by no process in any state |
| KeyRotation.SafeExactlyWhenCareful | backend/app/config.py:369-374 | whenever the script rests every process accepts a token issued in the run exactly while it lives, in every schedule, iff none of these six things happens, for every grace period covering the token lifetime |

## Left out

Assumptions of the proved properties:

- Toolchain: during a run the tag resolves to one image, which ships a readable manifest and no stamp file; holders finish within the lock timeout, a re-check under the lock does not fail and the copy succeeds (each broken in a lemma of its own); killing the populate helper takes effect; files are wiped and copied in any order; names starting with two dots survive the wipe.
- Fleet: a path for one server is one step; the configured device pool does not change; a failed spawn leaves no new running container; container names are unique per server; statuses are truthful or unknown; a delete that reports success removed the container; an exception after a successful spawn does not occur on the create, start, restart and update paths. The environment of a server exists. Records are updated as values, not in place.
- StampedeCache: one key at a time, starting from an empty Redis; the breaker's refusals are the `Skipped` answers.
- AdminBulk.Console.BulkAction: a reservation that loses the race for a device, or finds one listed twice, rolls the session back and with it the records of earlier entries since the last commit; entries are final in the model, because the loop's own commits are not modelled.
- RefreshTokens, ApiTokens: bcrypt verifies exactly the hashed secret, SHA-256 has no collisions, random secrets and keys do not repeat, all clock readings of one request but those of the two verification queries are equal; requests do not overlap (`OverlapKeepsCapIff` and `SingleUseIff` say what overlapping creations and rotations do).
- Queue: no other process allocates devices or changes the queue during a pass; a release succeeds.
- Billing.Biller.Reconcile: the exact cost is truncated from exact microseconds, where the source multiplies floats, because rounding of the last bit is not what it is about.
- Billing: a crash between the debit and the commit of `total_cost` does not occur.
- IdleShutdown: the sidecar handles requests one after another; the rate limiter's answer is given.
- KeyRotation: one rotation script at a time, production mode, a key ring reload is one step, private key files have distinct times, no clock leeway.

Not modelled:

- Plan change in `update_server` (a recreate under the same plan is `Update`), renaming a server, paused containers, and reconciliation during spawns of more than fifteen minutes.
- Exceptions in the queue pass after a successful spawn, where devices are released though a server may run; a charge is not refunded when the spawn fails.
- The command-line tool's own handling of the toolchain lock.
- Quota counters, CPU, memory and disk accounting (their answers are given to the queue pass).
- Tracked-set invalidation of cached lists and freshness after it.
- The JWT attempt both API-token lookups make first, token formats, hashing and signing themselves.
- `ValidateHandler`: it takes the same branches as `AuthRequestHandler` and is represented by `Handle`.
- Web frontend, routes, migrations, dashboards, notifications, search, preferences and settings, which would only add easy members.
