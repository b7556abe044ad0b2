# Verification of the OpenVDI broker

The broker hands virtual desktops to users. Its database of pools, desktops and sessions is changed by user
calls, by admin calls and by four leader-elected workers, each of which talks to a hypervisor that may fail at
any point. This project models that lifecycle in Dafny and proves what holds over whole runs: who may hold a
desktop, which VMIDs are taken, which sessions are alive, and what the locks protect. `dafny verify
dfyconfig.toml` checks all of it.

The parts build on one another:

- `Entities` has the rows and the queries on them; `Lifecycle` says what one service call does to the database,
  every answer of the hypervisor being an argument. `Effects` gives each call's answers and effects in the columns of
  the rows alone, independently of the functions the calls share. `Invariant` proves one inductive invariant of that
  machine, `History` that it only moves forward, `Guarantees` what both mean over every run from the empty database,
  `RoundTrips` what one call does to the effect of another, and `Limits` exactly where the promises stop.
- `Store`, `Services` and `Handlers` are the source's own methods, updating rows in place across commits and
  rollbacks, each proved to do what `Lifecycle` says, the handlers on the tables as they are when they write.
  `PoolRange` and `Capacity` are the VMID range check and the pool's capacity.
- `CheckThenWrite` takes the calls apart into the guard, on rows read without a lock, and what they read and write
  later on whatever is there by then; `WriteSafety` says exactly when such a write does no harm, `LateHistory` what
  none of them undoes. `Claim` runs connects, row locks and all, among these steps; `Races` proves for each event of
  that machine when the invariant survives it, `RaceRuns` gives the runs in which it does not, and `Growth` says when
  a pool that is no longer active grows.
- `Allocation`, with `AllocationRuns`, and `Leader` are two more protocols at the grain of locks and commits.
- `Debounce`, `Spares`, `ProviderSync`, `RefreshToken` and `Retry` are stateful components: the logoff debounce,
  the warm-spare worker, provider reconciliation, refresh-token rotation, and the client's retry loop.

Where a promise turned out not to hold of the code, the code is modelled as it is, the exact condition under
which the promise holds is proved, and a lemma shows the failure:

- A logoff is two commits; a user who connects between them loses the desktop (`Limits.RefreshSafeIff`,
  `Limits.DeleteSafeIff`, `Limits.LogoffGap`).
- Handlers check first and write later, without a lock in between. A connect that commits after the guard of a
  destroy, rebuild or unassignment loses its desktop to the write, and only such a connect does
  (`Races.OnlyLatecomersAreHarmed`, `RaceRuns.DestroyedUnderASession`); two live sessions can end up on one desktop
  (`RaceRuns.TwoSessionsOnOneDesktop`). A build or a refresh ends by what it read at its start, so a desktop assigned
  meanwhile is offered to everybody (`RaceRuns.BuildForgetsAnAssignment`), and a rebuild gives its row back to the
  user it had kept, over whoever has got it between its two transactions (`Races.WriteBackHarmsOthersOnly`,
  `RaceRuns.WriteBackTakesTheDesktop`). The exact condition for each late write is in `WriteSafety.WriteSafeIff`.
- A pool's deletion does not see a connect in flight. It breaks nothing itself; the connect's commit does, exactly
  when the pool is being deleted by then (`Races.CommitSafeIff`), and its session can never end
  (`RaceRuns.DeletionOrphansAConnect`). A drain checked earlier can call the deletion off while the cascade goes on,
  which then harms those who have connected since (`Growth.StatusGoesBackIff`,
  `Races.CascadeHarmsLatecomersOnly`).
- A pool that is drained or deleted still gets the rows and sessions of provisionings and connects that had checked
  it before, and no others (`Growth.RowsGrowIff`, `Growth.SessionsGrowIff`).
- The guards of rebuild, destroy, unassign and pool deletion do not count disconnected sessions. No caller puts a
  session in that state, so no run shows it (`Invariant.GuardIsExact`), but the transition alone would
  (`Limits.DisconnectedSessionIsOrphaned`); they are safe exactly when there is none (`Limits.DoomSafeIff`,
  `Limits.UnassignSafeIff`, `Limits.DeletePoolSafeIff`).
- One desktop per user and persistent pool breaks when a row under deletion is revived
  (`Limits.OneEachUnlessRevived`), when an assignment is written for a user who has got a desktop, or started
  to, since it was checked (`Allocation.LateAssignmentMakesTwo`), or when a rebuild writes back the user it had
  kept, or replaces its row for him (`AllocationRuns.KeptUserMakesTwo`); `Allocation.SoleUnlessIntruded` has all of it.
- A stamp can vouch for a provider that has older settings than its row, or is not there: after a reconciliation
  that read the row before it changed, a swap overtaken by another edit, a write whose transaction began before
  the stamp, or a deletion that failed after its pop. `ProviderSync.FreshnessOverRuns` has the exact condition over
  all sequences of these, and `ProviderSync.StrandedUntilWritten` that no reconciliation repairs it. A provider
  leaves service unclosed when a reconciliation stores over one swapped in meanwhile, or a deletion fails after its
  pop, and then only (`ProviderSync.LeaksOverRuns`).
- The spare worker tries one pool a tick and gives up for that tick, so one pool that cannot be served starves the
  rest (`Spares.ChosenPoolStarvesOthers`), and one whose builds fail uses up its whole VMID range, whatever its
  `max_size` (`Spares.FailuresUseUpTheRange`).
- The lock's connection goes back to the pool alive, and the server grants the lock again to the session that has
  it. An unlock that is lost therefore keeps the worker from every other broker until that connection dies, while
  its own broker leads again exactly when it draws that connection, after which one unlock no longer frees the
  lock (`Leader.LeakedServesOneBroker`, `Leader.LeakedUntilDrawn`, `Leader.LeadsAgainOnTheLeakedLock`).

Where comments and code differ, the model follows the code: `destroy_vm` documents waits of 5, 10 and 20 seconds
but never waits after its last attempt (broker/app/providers/proxmox/provider.py:266-290); a comment in the stuck
sweep says the task tracker does not poll rows in error, but its query selects every row with a UPID
(broker/app/workers/health_checker.py:431-433, broker/app/workers/task_tracker.py:73-79); the assign handler calls
one desktop per user a rule of connect too, which it is only in persistent pools (broker/app/api/desktops.py:229-231,
broker/app/services/broker.py:223-247); credential rotation says the old provider is left in place when the new
credentials do not work, but the next reconciliation replaces it because the row has changed
(broker/app/api/clusters.py:343-347, broker/app/workers/health_checker.py:163-171).

## Model

| member | source | states |
|---|---|---|
| `Services.TransitionToEnded` | broker/app/services/session_tracker.py:95-143 | Refused on an ended session; otherwise the session ends without ticket and its desktop is freed (floating) or kept for its user (other), exactly as `EndSession` says. |
| `Services.AllocateVmid` | broker/app/services/vmid_allocator.py:41-74 | The scan returns the lowest VMID of the range no row of the pool has, or nothing when all are taken. |
| `Services.ProvisionDesktop` | broker/app/services/provisioner.py:186-452 | New row or rebuild: refused unless the pool is active, then the final row and reply of `Provision` or of a rebuild in the old VMID. |
| `Services.RefreshDesktop` | broker/app/services/provisioner.py:458-616 | Refused without change, or entered in one commit and ended in a second, on the tables as others have left them by then: a success writes the columns that differ from the row as it entered, a failure puts the row read anew in error. |
| `Services.DeleteDesktopOnLogoff` | broker/app/services/provisioner.py:619-730 | Refused without change, or entered in one commit and ended on the tables as they are by then: the row is gone and its sessions keep no desktop, or it is in error. |
| `Services.FinishedEffect` | broker/app/services/provisioner.py:288-452 | The end of a build by its clone and what follows: running and assigned or available, or in error, stopped when the clone was refused. |
| `Services.RefreshEndEffect` | broker/app/services/provisioner.py:548-612 | The second commit of a refresh on the tables it finds: available, running and without the floating user it had entered with, or in error; nothing else changes. |
| `Services.RemovalEndEffect` | broker/app/services/provisioner.py:696-730 | That of a removal: the row is gone and its sessions lose their desktop only, or its status is error and that is all. |
| `Services.NoGapIsRefresh` | broker/app/services/provisioner.py:458-616 | With nothing between its two commits a refresh is the one of the lifecycle. |
| `Services.NoGapIsRemoval` | broker/app/services/provisioner.py:619-730 | So is a delete on logoff. |
| `Services.OpenDesktopSession` | broker/app/services/broker.py:258-313 | Session created, activated and committed with the connected desktop in one transaction. |
| `Services.ConnectDesktop` | broker/app/services/broker.py:129-325 | All branches of a connect, errors and rollback included, end in the database and reply of `Connect`. |
| `Services.EndUserSession` | broker/app/services/broker.py:328-381 | Unknown and ended sessions are refused without change; a live one ends as `EndSession` says, committed. |
| `Handlers.AssignDesktop` | broker/app/api/desktops.py:199-275 | Both conflict guards refuse without change. A passed one writes, onto the row as others have left it by then, just the columns in which the assigned row differs from the row read; nothing when it is gone. |
| `Handlers.UnassignDesktop` | broker/app/api/desktops.py:284-336 | Refused when unassigned or in use; otherwise user, type and an assigned status are cleared late, on the row as it is by then. |
| `Handlers.DesktopPower` | broker/app/api/desktops.py:344-428 | One task at a time; after the provider accepted, UPID and kind are written onto the row as it is by then. |
| `Handlers.DoomDesktop` | broker/app/api/desktops.py:439-609 | Rebuild and destroy: refused with a task in flight or an active session; deleting and the task are written after the provider calls, onto the row as it is by then. |
| `Handlers.ApplyTaskSuccess` | broker/app/services/task_tracker.py:101-194 | A finished destroy removes the row, power tasks set its power state. A rebuild clears the task in one commit; its second transaction builds the row as it is by then for the user kept from the first, or provisions another if it is gone. |
| `Handlers.NoGapIsRebuild` | broker/app/services/task_tracker.py:131-174 | With nothing between its two transactions the end of a rebuild is the one of the lifecycle. |
| `Handlers.PollOne` | broker/app/workers/task_tracker.py:83-185 | Dispatch of one in-flight row: unknown kind, provider error and failure to error, running to no change, success to what its kind is completed by. |
| `Handlers.EndLatestSession` | broker/app/workers/session_monitor.py:419-432 | A stopped or missing VM ends the desktop's latest live session and recycles nothing. |
| `Handlers.HandleLogoff` | broker/app/workers/session_monitor.py:267-323 | The session's end is committed first; then, each on whatever the tables hold by then, the two commits of a delete or a refresh, or neither: the state of which `LogoffRemoves`, `LogoffRecycles`, `LogoffKeepsTheRow` and `NoGapIsLogoff` speak. |
| `Handlers.NoGapIsLogoff` | broker/app/workers/session_monitor.py:267-323 | With nothing between its commits a dispatched logoff is the one of the lifecycle. |
| `Handlers.LogoffKeepsTheRow` | broker/app/workers/session_monitor.py:300-306 | Persistent pools and pools with neither flag see the session end and nothing else; a session that is gone or has no desktop stops it. |
| `Handlers.LogoffRemoves` | broker/app/workers/session_monitor.py:307-314 | With the delete flag the row the cycle finds is removed or in error, whatever the refresh flag says; one that may not be deleted stays. |
| `Handlers.LogoffRecycles` | broker/app/workers/session_monitor.py:315-320 | With the refresh flag only, the row the cycle finds ends available, running and without its floating user, or in error. |
| `Handlers.AfterSuccessEffect` | broker/app/services/task_tracker.py:131-174 | The end of a rebuild in columns: the pool and the row as its second transaction finds them, the dedicated user as its first read the row. |
| `Handlers.SecondLegEffect` | broker/app/services/task_tracker.py:150-174 | A rebuild's second transaction builds the row in its VMID for the user kept, or a new row for that user in the least free VMID when it is gone. |
| `Handlers.CheckStuckProvisioning` | broker/app/workers/health_checker.py:398-444 | The loop puts exactly the rows provisioning for more than ten minutes in error and leaves all others. |
| `Handlers.CreatePoolRow` | broker/app/api/pools.py:168-264 | Checks of size, cluster, template, provider, range and name in the source's order; the insert then happens on the tables as they are by then, where only the name is checked again. |
| `Handlers.UpdatePoolRow` | broker/app/api/pools.py:308-384 | Immutable fields and status refused, `max_size` bounded by range and by rows, the rest written. |
| `Handlers.DrainPool` | broker/app/api/pools.py:754-810 | Active becomes draining by a late write, draining stays, anything else is a conflict; the count of active sessions is exact. |
| `Handlers.StartPoolDelete` | broker/app/api/pools.py:395-484 | Refused with active sessions; otherwise deleting by a late write, with the cascade scheduled and the remaining rows counted. |
| `Handlers.DestroyOne` | broker/app/api/pools.py:528-569 | One desktop of the cascade: removed, put in error, or untouched, by its fate. |
| `Handlers.DeletePoolCascade` | broker/app/api/pools.py:487-607 | The loop over the desktops and the final check leave the database of `Cascade`. |
| `Effects.TransitionsOf` | broker/app/services/session_tracker.py:53-125 | Connecting to active, active to disconnected, anything but ended to ended, and nothing else; the ticket is set on activation and dropped at the end. |
| `Effects.EndEffect` | broker/app/services/session_tracker.py:95-143 | Which sessions can be ended, and what that leaves: the desktop without a floating user and available, or disconnected and its user's. |
| `Effects.ProvisionEffect` | broker/app/services/provisioner.py:186-452 | Refused outside `active` and in a full range; else one row in the least VMID no row of the pool has, dedicated, spare or in error by pool type, user and build. |
| `Effects.CloneWindowEffect` | broker/app/services/provisioner.py:231-303 | What a poll can see of a build: the final row's place and user, provisioning, stopped, with a UPID of no kind. |
| `Effects.ConnectRefuses` | broker/app/services/broker.py:138-190 | `NotEntitled` exactly when no entitlement of the active pool names the user or one of the user's groups; the other refusals likewise by the tables alone. |
| `Effects.GrantAdmits` | broker/app/services/broker.py:160-181 | One grant to a group admits each member; with the grants that name the user or the groups withdrawn, nobody is let in. |
| `Effects.PersistentConnectAnswers` | broker/app/services/broker.py:192-216 | Two rows of the user that are not being deleted are an error, one is reconnected, none is provisioned, each with its failures. |
| `Effects.PooledConnectAnswers` | broker/app/services/broker.py:223-250 | Full exactly when the pool has no available row; a failure after that changes nothing. |
| `Effects.PooledConnectOpens` | broker/app/services/broker.py:223-313 | The session opens on an available row of the least VMID, which becomes the user's, floating, connected and running; no other row changes. |
| `Effects.PersistentConnectOpens` | broker/app/services/broker.py:192-313 | The session opens on the user's own row, whose place and assignment stay. |
| `Effects.FirstConnectEffect` | broker/app/services/broker.py:203-313 | The row a first connect builds is dedicated to the user in the least free VMID, and stays when the build or the session fails. |
| `Effects.FailedConnectChangesNothing` | broker/app/services/broker.py:192-291 | A connect that fails on an existing row, or in a full range, changes nothing. |
| `Effects.AssignEffect` | broker/app/api/desktops.py:199-275 | Which conflicts are answered, two rows of the user elsewhere in the pool included, and the columns set: dedicated exactly in a persistent pool, assigned exactly if available. |
| `Effects.UnassignEffect` | broker/app/api/desktops.py:284-336 | Refused exactly without user or with a connecting or active session; else user and type go and an assigned row is available. |
| `Effects.PowerEffect` | broker/app/api/desktops.py:344-428 | One task at a time, recorded by where the VM will be: a reboot counts as a start. |
| `Effects.DoomEffect` | broker/app/api/desktops.py:439-609 | Refused exactly with a task in flight or a connecting or active session, then by the provider; else deleting, with the task and its kind. |
| `Effects.LateEffect` | broker/app/api/desktops.py:255-275 | A late write of a row sets the columns its call changed and leaves what others have written to the rest. |
| `Effects.PollEffect` | broker/app/workers/task_tracker.py:83-185 | No task in flight or still running: nothing; failed, unknown or without kind: the row in error with its user and power. |
| `Effects.PowerTaskEnds` | broker/app/services/task_tracker.py:176-194 | Start ends running, stop and shutdown stopped, the rest of the row as it was. |
| `Effects.DestroyTaskEnds` | broker/app/services/task_tracker.py:117-129 | Exactly that row goes; its sessions keep all but their desktop. |
| `Effects.RebuildTaskEnds` | broker/app/services/task_tracker.py:131-174 | The row is built in its place for its dedicated user, or left provisioning when the pool is not active. |
| `Effects.VmDownEffect` | broker/app/workers/session_monitor.py:419-432 | The youngest live session of a monitored desktop ends, and nothing without one. |
| `Effects.RefreshEffect` | broker/app/services/provisioner.py:458-616 | Which rows may be refreshed, and their end: a running spare without its floating user, or in error. |
| `Effects.RemovalEffect` | broker/app/services/provisioner.py:619-730 | Which rows may be deleted on logoff, and their end: gone, or in error with user and power kept. |
| `Effects.LogoffWaits` | broker/app/workers/session_monitor.py:267-285 | Unless the youngest live session of a monitored desktop is active, a logoff does nothing. |
| `Effects.LogoffKeeps` | broker/app/workers/session_monitor.py:300-306 | In a persistent pool, or with neither flag, a logoff is the end of that session. |
| `Effects.LogoffDeletes` | broker/app/workers/session_monitor.py:307-314 | With the delete flag, whatever the refresh flag, the row goes and its session names none; if that fails it is in error. |
| `Effects.LogoffRefreshes` | broker/app/workers/session_monitor.py:315-320 | With the refresh flag only, the session ends and the row is a running spare again, or in error. |
| `Effects.SweepEffect` | broker/app/workers/health_checker.py:398-444 | Exactly the stale provisioning rows are put in error, with user and power kept. |
| `Effects.CreateEffect` | broker/app/api/pools.py:168-264 | Refused exactly by size, by a VMID shared with a pool or a live VM, or by its name; else one active pool more, as asked for. |
| `Effects.InsertEffect` | broker/app/api/pools.py:224-264 | The insert of a pool fails exactly on a name that is taken, whatever ranges have come meanwhile. |
| `Effects.UpdateEffect` | broker/app/api/pools.py:308-384 | Refused exactly by immutable fields or a `max_size` beyond the range or below the rows; else each field given is set and each other one kept. |
| `Effects.DrainEffect` | broker/app/api/pools.py:754-810 | Active and draining pools end draining, others refuse; only that column changes. |
| `Effects.DeleteEffect` | broker/app/api/pools.py:395-484 | Refused exactly while a session on a row of the pool is connecting or active, unless already deleting. |
| `Effects.CascadeEffect` | broker/app/api/pools.py:487-607 | Destroyed and vanished rows go, refused ones are in error, crashed ones stay; pool and entitlements go exactly when no row is left. |
| `PoolRange.DbConflicts` | broker/app/services/vmid_allocator.py:100-131 | Found exactly when another pool's range meets the proposal; the set is the shared VMIDs. |
| `PoolRange.ProxmoxConflicts` | broker/app/services/vmid_allocator.py:137-145 | The live VMIDs inside the proposal, unreadable references passed over. |
| `PoolRange.ValidatePoolRange` | broker/app/services/vmid_allocator.py:77-149 | Rejects exactly the proposals that meet another pool's range or contain a live VM, pools reported first, conflicts increasing and without repeats. |
| `PoolRange.MeetingIsSharing` | broker/app/services/vmid_allocator.py:103-108 | For non-empty ranges the SQL overlap test is equivalent to sharing a VMID. |
| `Invariant.StepKeeps` | broker/app/services/broker.py:129-325 | Every one of the machine's eighteen calls keeps the invariant on pools, rows, sessions and exclusivity. |
| `Invariant.RunKeeps` | broker/app/services/broker.py:129-381 | So does every run of calls, with arbitrary provider outcomes. |
| `Invariant.EndSessionTotal` | broker/app/services/session_tracker.py:127-134 | The row lookup at the end of a live session never fails. |
| `Invariant.FreeIsFresh` | broker/app/services/vmid_allocator.py:59-69 | A VMID free in its own pool's rows is free in all rows. |
| `Invariant.GuardIsExact` | broker/app/api/desktops.py:65-80 | The guards' count of connecting and active sessions misses no live session in any reachable state. |
| `Invariant.SpareIsIdle` | broker/app/services/broker.py:224-247 | An available row has no live session and no user. |
| `History.StepEvolves` | broker/app/services/session_tracker.py:53-125 | Every call moves sessions and pools only forward, keeps row identities and adds only to active pools. |
| `History.RunEvolves` | broker/app/services/session_tracker.py:53-125 | The same from the first to the last state of any run. |
| `History.InactivePoolsShrink` | broker/app/services/broker.py:155-158 | Outside `active` the rows and live sessions of a pool are among those it had. |
| `Guarantees.NonPersistentExclusivity` | broker/app/services/broker.py:223-291 | In every reachable state a non-persistent desktop has at most one live session, of its floating user, and none while available. |
| `Guarantees.LiveSessionsKeepTheirDesktop` | broker/app/services/session_tracker.py:127-143 | In every reachable state a live session has its row and can be ended, for good. |
| `Guarantees.SessionLifecycle` | broker/app/services/session_tracker.py:53-125 | Over all runs ranks only rise, ended is final, a ticket is stored exactly while active or disconnected, no committed session is connecting. |
| `Guarantees.VmidSafety` | broker/app/services/vmid_allocator.py:50-74 | After every run ranges are disjoint, rows lie in their pool's range, no VMID occurs twice. |
| `Guarantees.PoolLifecycle` | broker/app/api/pools.py:413-450 | Call by call, status only moves forward; outside active neither rows nor live sessions grow; a deleting pool has no live session. |
| `Guarantees.RemovedPoolsStayRemoved` | broker/app/api/pools.py:602-603 | A removed pool never returns and gains no rows. |
| `Guarantees.PoolsGoEmpty` | broker/app/api/pools.py:578-603 | Only a cascade that razed the last row removes a pool. |
| `Guarantees.CascadeExact` | broker/app/api/pools.py:528-603 | The rows left are exactly those whose destruction failed, and the pool row goes exactly when none is left. |
| `Guarantees.CascadeSpares` | broker/app/api/pools.py:555-565 | Failed rows are in error, crashed ones and other pools untouched. |
| `Guarantees.ReissuedDeletesEnd` | broker/app/api/pools.py:408-435 | Over any run from a deleting pool, whatever calls come between: as many cascades that destroy a desktop as it has rows remove the pool. |
| `RoundTrips.AssignThenUnassign` | broker/app/api/desktops.py:255-321 | Unassigning a freshly assigned spare restores the whole database. |
| `RoundTrips.ConnectThenEnd` | broker/app/services/broker.py:223-313 | A connect takes the available row with the lowest VMID; ending its session gives that row back as it was, running, and touches no other. |
| `RoundTrips.FirstConnectProvisions` | broker/app/services/broker.py:203-216 | A first connect leaves its user exactly one row, in the lowest free VMID. |
| `RoundTrips.PersistentDesktopSticks` | broker/app/services/broker.py:192-201 | After the end of a session the user's next connect opens on the same desktop and adds no row. |
| `RoundTrips.RebuildKeepsPlaceAndUser` | broker/app/services/task_tracker.py:131-175 | A rebuild keeps pool, VMID and a dedicated user, drops a floating one, and touches nothing else. |
| `RoundTrips.DestroyRemovesOneRow` | broker/app/services/task_tracker.py:119-129 | A destroy removes exactly its row; only ended sessions named it. |
| `RoundTrips.PowerTaskChangesPowerOnly` | broker/app/services/task_tracker.py:186-194 | A finished power task changes the power state and nothing else. |
| `Limits.RefreshSafeIff` | broker/app/workers/session_monitor.py:278-285 | A refresh after a logoff keeps exclusivity exactly when nobody connected in between. |
| `Limits.DeleteSafeIff` | broker/app/services/provisioner.py:696-701 | A delete after a logoff leaves every session its desktop exactly when nobody connected in between; otherwise that session cannot end. |
| `Limits.LogoffGap` | broker/app/workers/session_monitor.py:278-320 | A concrete run in which a second user connects in the gap and the refresh frees the desktop under him. |
| `Limits.DoomSafeIff` | broker/app/api/desktops.py:464-475 | The guard leaves no live session behind exactly when none is disconnected. |
| `Limits.UnassignSafeIff` | broker/app/api/desktops.py:300-315 | The guard of an unassignment leaves no live session behind exactly when none is disconnected. |
| `Limits.DeletePoolSafeIff` | broker/app/api/pools.py:437-450 | The guard of a pool's deletion leaves no live session in the pool exactly when none on its rows is disconnected. |
| `Limits.DisconnectedSessionIsOrphaned` | broker/app/services/session_tracker.py:73-92 | With the unused transition to disconnected, a destroy orphans a live session. |
| `Limits.OneEachUnlessRevived` | broker/app/services/broker.py:194-203 | A call keeps one desktop per user and active persistent pool exactly when it does not revive a second one. |
| `Limits.FailedDestroyLocksOut` | broker/app/services/task_tracker.py:197-216 | A concrete way there: a user connects while his row is being deleted, the destroy fails, and further connects find two rows. |
| `Limits.FloatingIsNotPerUser` | broker/app/services/broker.py:223-247 | In a non-persistent pool a second connect of the same user gets another desktop. |
| `Limits.TickInCloneWindow` | broker/app/workers/task_tracker.py:105-122 | A poll between the clone's commit and the outcome marks the row failed; the provisioner's last write overrules it. |
| `Capacity.ComputeCapacity` | broker/app/api/pools.py:102-130 | The counting loop returns every status's count, their total and the free slots. |
| `Capacity.StatusesPartition` | broker/app/api/pools.py:117-122 | The eight per-status counts add up to the total. |
| `Capacity.SlotsAreFreeVmids` | broker/app/api/pools.py:124-128 | Free slots are the free VMIDs of the range, hence never negative. |
| `Capacity.AllocationTakesFirst` | broker/app/services/vmid_allocator.py:67-74 | An allocation takes the first free VMID and leaves the others in order. |
| `Capacity.FreeSlotsAreFilledInOrder` | broker/app/services/vmid_allocator.py:67-69 | Exactly that many further provisionings get the free VMIDs, in increasing order, whatever their builds do. |
| `Capacity.ThenExhausted` | broker/app/services/vmid_allocator.py:71-74 | The next one finds the range exhausted. |
| `Allocation.StepKeeps` | broker/app/services/vmid_allocator.py:53-74 | Every step of the lock-level machine keeps locks, ranges, rows and picked VMIDs in order. |
| `Allocation.InsertNeverCollides` | broker/app/services/vmid_allocator.py:50-57 | With the pool lock held from read to commit the unique constraint on VMIDs never fires. |
| `Allocation.VmidsStaySafe` | broker/app/services/provisioner.py:231-302 | After any interleaving of allocations, rollbacks, deletions and pool creations: ranges apart, rows in range, VMIDs distinct. |
| `Allocation.SoleUnlessIntruded` | broker/app/services/broker.py:183-216 | A step keeps at most one desktop, present or on its way, per user and persistent pool, exactly when it does not supply a user who has or is getting another: by reviving a row, writing an assignment checked earlier, writing back or replacing for the user a rebuild has kept, or looking past such a replacement. |
| `Allocation.OneDesktopPerUser` | broker/app/services/broker.py:183-216 | In every run without such a step, however many connects of a user race, the pool holds at most one row for him. |
| `Allocation.UnchangedColumnsStay` | broker/app/api/desktops.py:255-275 | An assignment to the row's own user, or a rebuild's write-back of the user its second leg has read, leaves what others have written. |
| `Allocation.IntrusionCosts` | broker/app/api/desktops.py:229-258 | A revival, an assignment's write or a rebuild's write-back that overtakes a pending connect ends in two rows. |
| `Allocation.LateAssignmentMakesTwo` | broker/app/api/desktops.py:229-258 | An assignment checked before a connect and written after its commit, with no other connect of the user pending, gives him two rows too. |
| `AllocationRuns.KeptUserMakesTwo` | broker/app/services/task_tracker.py:131-174 | A run from nothing, without revival or assignment, to two rows: a rebuild keeps its user, is unassigned between its transactions, the user connects, and the rebuild writes him back. |
| `Allocation.NoDeadlock` | broker/app/services/broker.py:183-189 | From every reachable state the transactions' own steps, at most six each, finish all of them. |
| `CheckThenWrite.NoGapIsTheCall` | broker/app/services/broker.py:129-325 | The check and the late steps of every call, those of a first connect, a rebuild's two transactions and a pool's cascade included, are with nothing between them the call of the lifecycle. |
| `CheckThenWrite.WriteIsTheDifference` | broker/app/api/desktops.py:255-261 | A late write of an assign, unassign, power, rebuild or destroy changes just the columns in which the call's outcome differs from the row it read. |
| `CheckThenWrite.RefreshIsTheDifference` | broker/app/services/provisioner.py:556-570 | So is the late write of a refresh that succeeds. |
| `CheckThenWrite.GoneRowEnds` | broker/app/services/task_tracker.py:101-116 | A call on a row that is gone by its next step ends with nothing written; only a rebuild between its legs goes on. |
| `CheckThenWrite.LateDoom` | broker/app/api/desktops.py:439-609 | The late write of a rebuild or destroy takes the row over whatever others have made of it, keeping user and power. |
| `CheckThenWrite.LateUpdate` | broker/app/api/pools.py:308-384 | The late write of a pool update sets the fields given with a new value and leaves what others have written to the rest, status and range included. |
| `CheckThenWrite.LateDestroy` | broker/app/api/pools.py:528-569 | The end of one destroy of a cascade, by its fate and the row as it is by then, and whether the pool row may still go. |
| `CheckThenWrite.RazeOneMore` | broker/app/api/pools.py:571-576 | Razing one more desktop of a set is razing the larger set. |
| `CheckThenWrite.CascadeEnds` | broker/app/api/pools.py:528-603 | A cascade taken destroy by destroy, in whatever order they begin and end, is the cascade of the lifecycle. |
| `WriteSafety.WriteSafeIff` | broker/app/services/provisioner.py:280-452 | For every late write, on any state: the lifecycle invariant survives it exactly when a condition that could be checked again before it holds. |
| `WriteSafety.RewriteSafeIff` | broker/app/api/desktops.py:232-261 | Assign, unassign, rebuild, destroy: exactly when nobody else is live on the row, and it did not start to be deleted or freed meanwhile. |
| `WriteSafety.BuildSafeIff` | broker/app/services/provisioner.py:410-452 | The end of a build: exactly when the row has no task by then, and no user if it is to become a spare. |
| `WriteSafety.ResetSafeIff` | broker/app/services/task_tracker.py:159-174 | The second transaction of a rebuild: exactly when nobody live on the row loses it to the kept user, and what it leaves unwritten has not changed against it. |
| `WriteSafety.RefreshWriteIff` | broker/app/services/provisioner.py:548-570 | The end of a refresh: exactly when nobody is live on the row, nobody has been given it meanwhile, and no task will remove it. |
| `WriteSafety.FailSafeIff` | broker/app/services/provisioner.py:586-612 | The failure of a cycle: exactly when nobody is live on a row it takes from its floating user, and no task will remove it. |
| `WriteSafety.RemovalSafeIff` | broker/app/services/provisioner.py:696-701 | The removal of a row: exactly when nobody is live on it. |
| `WriteSafety.CascadeSafeIff` | broker/app/api/pools.py:528-569 | One step of a cascade: exactly when nobody is live on a row it destroys; a failure, unless a task will remove the row. |
| `WriteSafety.PoolWriteSafeIff` | broker/app/api/pools.py:437-472 | Deletion: exactly when no session is live in the pool by then. Drain: unless it calls off a deletion whose rows do not say so themselves. |
| `WriteSafety.CreateSafeIff` | broker/app/api/pools.py:214-264 | A new pool: exactly when its name is taken by then or its range still meets no other. |
| `WriteSafety.EndSafeIff` | broker/app/services/session_tracker.py:111-143 | The end of a session, by the assignment it read: exactly when nobody else has got the desktop it frees, and no task will remove it. |
| `WriteSafety.CloseSafeIff` | broker/app/services/task_tracker.py:131-216 | A status set at a task's end or at a cycle's start: exactly when no task has begun since the row was read, nobody has got a row made available, and nobody is live on one marked for removal. |
| `WriteSafety.SweepSafeIff` | broker/app/workers/health_checker.py:414-444 | The stuck sweep: exactly when none of its rows has got a task since it was read. |
| `WriteSafety.ReconnectSafeIff` | broker/app/services/broker.py:192-313 | A connect to a persistent desktop: exactly when the row is still its user's and not on its way out. |
| `Claim.ClaimsAreExclusive` | broker/app/services/broker.py:227-237 | After every run, with whatever other calls and late writes, no two connects in flight have claimed one desktop, and a claimed one is an available row of their pool. |
| `Claim.StepKeepsOrder` | broker/app/services/broker.py:183-313 | No event puts the locks out of order: holders are in flight, a claim has its row's lock, the row is available. |
| `Claim.PoolFullIff` | broker/app/services/broker.py:233-243 | A connect is refused exactly when every available row is claimed by another connect in flight or locked by another call between its flush and its commit. |
| `Claim.LowestUnclaimed` | broker/app/services/broker.py:233-235 | Otherwise it gets the lowest VMID among the available rows nobody has locked. |
| `Claim.InServiceExact` | broker/app/services/broker.py:224-247 | Open, claimed and flushed rows are the pool's available rows, each once, so the conserved count is that of its available and connected rows. |
| `Claim.SelectMoves` | broker/app/services/broker.py:224-247 | The selection moves that one row from available to claimed. |
| `Claim.FailMoves` | broker/app/services/broker.py:249-260 | A failure moves it back, and nothing else. |
| `Claim.CommitMoves` | broker/app/services/broker.py:276-313 | The commit moves it from claimed to connected, and nothing else. |
| `Claim.ConnectsConserve` | broker/app/services/broker.py:224-313 | Available, claimed, flushed and connected rows together are conserved by every step of a connect. |
| `Claim.RacesConserve` | broker/app/services/broker.py:224-313 | And by every race of connects. |
| `Claim.NoDeadlock` | broker/app/services/broker.py:183-189 | A connect waits only for one of the same user that waits for nobody. |
| `Claim.OneClaimPerUser` | broker/app/services/broker.py:183-189 | No user has two connects past the lock in one pool. |
| `Claim.AloneIsTheCall` | broker/app/services/broker.py:129-325 | The four events of a connect nobody interferes with are the lifecycle's connect. |
| `Races.StepKeepsIff` | broker/app/services/broker.py:224-313 | In a machine where connects, checks, late reads and writes of all calls interleave: each event keeps the lifecycle invariant exactly when its checkable condition holds. |
| `Races.RunKeepsClaims` | broker/app/services/broker.py:224-313 | Every run of safe events keeps it, with the claims and the handlers in order. |
| `Races.CommitSafeIff` | broker/app/services/broker.py:276-313 | A connect's commit keeps it exactly when its pool is not being deleted by then. |
| `Races.OnlyLatecomersAreHarmed` | broker/app/api/desktops.py:464-600 | A destroy, rebuild, unassignment or the end of a removal keeps it exactly when no session opened on the row since its guard is live. |
| `Races.AssignmentHarmsOthersOnly` | broker/app/api/desktops.py:232-261 | An assignment of a spare keeps it exactly when nobody else has opened a session on the row since its check. |
| `Races.CascadeHarmsLatecomersOnly` | broker/app/api/pools.py:528-569 | A cascade's destroy keeps it exactly when no session opened since the pool was marked is live on the row. |
| `Races.WriteBackHarmsOthersOnly` | broker/app/services/task_tracker.py:131-174 | A rebuild's write-back over a row read unassigned keeps it exactly when nobody but the kept user has opened a session on it since that read. |
| `Races.ClaimedIsIdle` | broker/app/services/broker.py:227-237 | In safe runs a claimed desktop has no live session. |
| `Races.CommitsAreExclusive` | broker/app/services/broker.py:227-313 | In safe runs no two live sessions share a non-persistent desktop. |
| `RaceRuns.TwoSessionsOnOneDesktop` | broker/app/api/desktops.py:307-321 | A run from the empty database, of two unassignments and two connects, in which they do. |
| `Races.EndReturnsTheRow` | broker/app/services/session_tracker.py:136-139 | The end of a session waits for no connect and moves its row from connected to available. |
| `RaceRuns.DestroyOvertakesAConnect` | broker/app/api/desktops.py:555-600 | From every state with a claimed connect and a destroy past its guard: the connect commits, the destroy's write waits for nobody and is unsafe. |
| `RaceRuns.DestroyOrphansASession` | broker/app/services/task_tracker.py:119-129 | The end of its task then removes the row under a session that can never end. |
| `RaceRuns.DestroyedUnderASession` | broker/app/api/desktops.py:531-600 | A run of all that from the empty database, with no pool deleted. |
| `RaceRuns.DeletionPassesAClaim` | broker/app/api/pools.py:437-450 | A pool's deletion does not see a claimed connect and is safe beside it; the connect's commit then is not. |
| `RaceRuns.DeletionOrphansAConnect` | broker/app/api/pools.py:528-569 | The cascade then destroys that desktop and the session can never end. |
| `RaceRuns.BuildForgetsAnAssignment` | broker/app/services/provisioner.py:410-436 | A spare assigned while it is built ends up available with its user, offered to everybody. |
| `RaceRuns.WriteBackTakesTheDesktop` | broker/app/services/task_tracker.py:131-174 | A rebuild's row, unassigned and given to another between its transactions, goes back to the first user under the other's session. |
| `Growth.RowsGrowIff` | broker/app/services/vmid_allocator.py:50-69 | With everything interleaved a pool, active or not, gains a row exactly by an insert whose pool check came before its wait for the lock, when a VMID is free. |
| `Growth.SessionsGrowIff` | broker/app/services/broker.py:155-158 | It gains a live session exactly by the commit of a connect to one of its rows. |
| `Growth.StatusGoesBackIff` | broker/app/api/pools.py:774-797 | Its status goes back exactly when a drain is written over its deletion. |
| `Debounce.SessionMonitor.ProcessDesktop` | broker/app/workers/session_monitor.py:145-260 | One desktop's streak after a tick, by what the tick found: gone after users seen or a VM missing or stopped, one more after an empty poll with an active session, or logoff at three, and otherwise as it was. |
| `Debounce.SessionMonitor.DropUnobserved` | broker/app/workers/session_monitor.py:96-103 | Exactly the streaks of desktops no longer observed are dropped. |
| `Debounce.SessionMonitor.ProcessRows` | broker/app/workers/session_monitor.py:105-120 | The loop treats every row once and dispatches each due desktop once. |
| `Debounce.SessionMonitor.Tick` | broker/app/workers/session_monitor.py:86-120 | A tick leaves the map and dispatches the set the specification says; the network poll falls on every fourth tick. |
| `Debounce.StreakRefinesHistory` | broker/app/workers/session_monitor.py:234-248 | After any run the stored streak is the count of empty polls since the last reset, modulo three. |
| `Debounce.DispatchExactly` | broker/app/workers/session_monitor.py:234-263 | Logoff is dispatched exactly on a counted poll that makes that count a positive multiple of three; keys are observed desktops, values one or two. |
| `Debounce.DispatchesEveryThird` | broker/app/workers/session_monitor.py:217-263 | In what the ticks find: logoff is dispatched exactly on every third tick that finds the desktop empty with an active session since users were seen, the VM was missing or stopped, or the desktop was not monitored. |
| `Debounce.HandoffNeverEarlier` | broker/app/workers/session_monitor.py:77-84 | Losing streaks never brings a dispatch forward. |
| `Debounce.FirstDispatchPlace` | broker/app/workers/session_monitor.py:234-248 | Without a reset the first dispatch falls on the counted poll that completes the threshold. |
| `Debounce.HandoffBound` | broker/app/workers/session_monitor.py:16-25 | A leader handoff delays it by exactly the counted polls lost, at most two. |
| `Debounce.StreakIsNotPerSession` | broker/app/workers/session_monitor.py:81-81 | Two sessions in a row on one desktop share a streak, so the second can be ended after one poll. |
| `Leader.StepKeeps` | broker/app/workers/base.py:191-306 | Every event keeps lock, grants, phases, ticks and the excuse of every overlap in order, with connections drawn from the pool and returned to it. |
| `Leader.OneLeader` | broker/app/workers/base.py:169-187 | Two brokers never both lead on connections that live. |
| `Leader.TicksStartHolding` | broker/app/workers/base.py:200-214 | When a tick starts its broker's connection holds the lock. |
| `Leader.OneBrokerOneTick` | broker/app/workers/base.py:191-254 | Ticks of one broker never overlap. |
| `Leader.OverlapOnlyAfterDeath` | broker/app/workers/base.py:191-254 | Ticks overlap only between brokers, and only if the earlier one's connection died during its tick and before the later one started. |
| `Leader.NoTickAfterDeath` | broker/app/workers/base.py:203-211 | No tick starts on a connection that is dead. |
| `Leader.OverlapHappens` | broker/app/workers/base.py:200-254 | A run of five events in which the overlap occurs. |
| `Leader.AcquiresIff` | broker/app/workers/base.py:271-276 | A try succeeds exactly when the lock is free, or the pool hands out the very connection that has it. |
| `Leader.LostUnlockLeaks` | broker/app/workers/base.py:286-306 | A leave leaves the lock on the returned connection exactly unless its unlock reaches the server and takes back the only grant. |
| `Leader.GrantsAreGivenBack` | broker/app/workers/base.py:286-306 | A session granted the lock several times has it until as many unlocks of its own have arrived. |
| `Leader.OthersUnlockNothing` | broker/app/workers/base.py:286-306 | Unlocks of a session that has not got the lock change nothing. |
| `Leader.LeakedUntilDrawn` | broker/app/workers/base.py:264-306 | A leaked lock stays leaked exactly until its connection dies or its own broker draws that connection again. |
| `Leader.LeakedHasNoTick` | broker/app/workers/base.py:264-306 | While the lock is leaked nobody ticks. |
| `Leader.LeakedServesOneBroker` | broker/app/workers/base.py:262-306 | Over every run after a leak, until that connection dies, no other broker ticks: its own leads at most on that connection, and its unlocks never free the lock. |
| `Leader.LeadsAgainOnTheLeakedLock` | broker/app/workers/base.py:271-306 | A run with no death in which the broker leads again on the leaked lock, and one unlock that arrives leaves it held. |
| `Spares.PickNeediestPool` | broker/app/workers/pool_provisioner.py:153-192 | The loop returns the first candidate with the largest actionable gap, nothing exactly when no gap is left. |
| `Spares.GapIsGreatest` | broker/app/workers/pool_provisioner.py:153-192 | A pool's gap is the most spares that can be added within `min_spare`, by its available rows, and within `max_size`, by its rows neither deleting nor in error. |
| `Spares.Tick` | broker/app/workers/pool_provisioner.py:61-151 | A tick provisions one row in the chosen pool, or nothing. |
| `Spares.TickEffect` | broker/app/workers/pool_provisioner.py:92-151 | It spends one VMID of the chosen pool and, if the build succeeds, closes one unit of its gap; no other pool changes. |
| `Spares.RestIsExact` | broker/app/workers/pool_provisioner.py:61-123 | A tick changes nothing exactly when no pool is chosen, or the chosen one has no provider or no free VMID. |
| `Spares.SuccessFillsOneGap` | broker/app/workers/pool_provisioner.py:173-192 | Each success lowers the sum of gaps by one; the worker idles exactly when it is zero. |
| `Spares.RunsComeToRest` | broker/app/workers/pool_provisioner.py:61-123 | Whatever the builds do, the provisioning ticks number at most the free VMIDs; a run that long has come to rest for good. |
| `Spares.ChosenPoolStarvesOthers` | broker/app/workers/pool_provisioner.py:173-192 | A chosen pool without provider or VMID keeps all others waiting for ever. |
| `Spares.FailuresUseUpTheRange` | broker/app/workers/pool_provisioner.py:194-223 | Failed rows count neither as spares nor against `max_size`, so a chosen pool whose builds fail is tried until its whole range is used up. |
| `Spares.GreedyIsMinMax` | broker/app/workers/pool_provisioner.py:173-192 | On vectors of gaps: greedy steps leave a largest gap no greater than any schedule of as many provisionings. |
| `Spares.TicksAreGreedy` | broker/app/workers/pool_provisioner.py:173-223 | Unobstructed successful ticks are the greedy steps on the pools' gaps. |
| `Spares.TicksAreMinMax` | broker/app/workers/pool_provisioner.py:173-223 | Hence they are min-max optimal on the database. |
| `ProviderSync.AppState.DropDeleted` | broker/app/workers/health_checker.py:133-155 | Providers and stamps of clusters no longer listed are gone, each provider closed. |
| `ProviderSync.AppState.Reconstruct` | broker/app/workers/health_checker.py:171-202 | A due cluster's provider is closed once and replaced, or missing when construction fails; nothing in service is ever closed. |
| `ProviderSync.AppState.BuildDue` | broker/app/workers/health_checker.py:157-212 | The loop handles exactly the due clusters. |
| `ProviderSync.AppState.SyncProviders` | broker/app/workers/health_checker.py:115-212 | With nothing between its steps, the map is the up-to-date old providers and the newly built ones; exactly what was taken out is closed, and nothing in the map is. |
| `ProviderSync.AppState.RotateCredentials` | broker/app/api/clusters.py:249-390 | Unknown cluster, unchanged settings, failed construction and failed ping leave map and stamps; an answering new provider replaces the old, which is closed. |
| `ProviderSync.AppState.DeleteCluster` | broker/app/api/clusters.py:394-474 | Refused while a pool or template uses the cluster; else the provider is popped, and closed only after the commit; the stamp stays. |
| `ProviderSync.FreshIff` | broker/app/workers/health_checker.py:157-212 | A reconciliation keeps freshness exactly when no cluster it built got other settings between load and stamp, unless its row is newer than the stamp, and none it failed to build has stopped being due. |
| `ProviderSync.UncommittedDeletionFreshIff` | broker/app/api/clusters.py:448-466 | A deletion that does not commit keeps freshness exactly when the cluster is due, or not served. |
| `ProviderSync.CommittedDeletionStaysFresh` | broker/app/api/clusters.py:448-474 | A deletion that commits keeps freshness. |
| `ProviderSync.RotationFreshIff` | broker/app/api/clusters.py:364-371 | A rotation's swap keeps it exactly when the new provider's settings are still the row's, or the cluster is due. |
| `ProviderSync.VersionsFollowEdits` | broker/app/workers/health_checker.py:133-171 | A commit on a cluster's row gives its settings a new version exactly when it edits them, and every commit sets `updated_at`. |
| `ProviderSync.VerdictIsExact` | broker/app/workers/health_checker.py:133-202 | Each event of writes, reconciliations, rotations and deletions decides a cluster's freshness by a condition on the state before it, or leaves it. |
| `ProviderSync.FreshnessOverRuns` | broker/app/workers/health_checker.py:115-212 | After every sequence of them a cluster is fresh exactly when the last event that decided about it decided so. |
| `ProviderSync.StrandedUntilWritten` | broker/app/workers/health_checker.py:163-169 | However many reconciliations follow, a stale or missing provider under a valid stamp stays so until its row is written or its provider swapped. |
| `ProviderSync.SecondRunIdleIff` | broker/app/workers/health_checker.py:115-212 | A second run on unchanged rows has nothing to do exactly when the first built every due cluster and stamped it no earlier than its row. |
| `ProviderSync.NothingDueIsNothingDone` | broker/app/workers/health_checker.py:163-169 | A run with nothing due changes nothing. |
| `ProviderSync.FailedDeletionStrands` | broker/app/api/clusters.py:448-466 | A run of five events to such a cluster: registered, built, and its deletion failed after the pop. |
| `ProviderSync.StepLeaks` | broker/app/api/clusters.py:364-466 | Each event leaves a provider unclosed exactly if it is a store over one swapped in meanwhile, or a deletion that fails after its pop. |
| `ProviderSync.LeaksOverRuns` | broker/app/workers/health_checker.py:171-202 | Over every run each provider ever in service is in exactly one place: in service, closed, in the hands of a deletion, or lost to one of those two events. |
| `RefreshToken.StepKeeps` | broker/app/api/auth.py:259-472 | Every step of interleaved logins, refreshes and logouts keeps rows, locks and log in order. |
| `RefreshToken.OnlyTheLatestSecret` | broker/app/api/auth.py:306-345 | In every interleaving an accepted secret is the one issued last for its row, and the row was not revoked before. |
| `RefreshToken.AcceptedOnce` | broker/app/api/auth.py:308-315 | Of any refreshes presenting one secret at most one succeeds. |
| `RefreshToken.DeadStaysDead` | broker/app/api/auth.py:317-333 | A revoked row, or an expired one no refresh holds, is never accepted again. |
| `RefreshToken.OutageLeavesTheRow` | broker/app/api/auth.py:371-381 | A directory outage leaves the row unchanged; the same secret then is good again. |
| `RefreshToken.GoodForADay` | broker/app/api/auth.py:383-386 | The secret of a login or a rotation is usable for exactly 86400 seconds. |
| `RefreshToken.UserGoneKills` | broker/app/api/auth.py:355-370 | A refresh whose user is gone revokes its row, and only that, and no later step undoes it. |
| `RefreshToken.AuthTokens.RevokeToken` | broker/app/api/auth.py:259-268 | The row is revoked; a missing one is ignored. |
| `RefreshToken.AuthTokens.Refresh` | broker/app/api/auth.py:276-403 | Succeeds exactly for a usable row, its secret and a known user, with a new secret good for a day; a user that is gone has the row revoked, an outage leaves it, and no other row changes. Its writes are those of the protocol's steps. |
| `RefreshToken.AuthTokens.Logout` | broker/app/api/auth.py:429-472 | Revokes the cookie's row whatever its secret; a malformed cookie changes nothing. |
| `RefreshToken.CookieRoundTrip` | broker/app/api/auth.py:60-81 | A cookie reads back as the identifier and secret it was made from. |
| `RefreshToken.ParsesExactly` | broker/app/api/auth.py:64-81 | Exactly the values identifier, dot, non-empty secret are read, split at the first dot. |
| `Retry.LockAnywhere` | broker/app/providers/proxmox/client.py:28-34 | A body is accepted exactly when the word occurs at some place of it, in any case. |
| `Retry.SentExactly` | broker/app/providers/proxmox/client.py:120-236 | The number of requests is the one with only timeouts, network failures and statuses of 500 and more before the last, which is below 500 or the last allowed. |
| `Retry.ParseBody` | broker/app/providers/proxmox/client.py:253-271 | Empty, JSON and unparsable 2xx bodies. |
| `Retry.Request` | broker/app/providers/proxmox/client.py:86-248 | That many requests, backoff*(2^(k-1)-1) of sleep, and for every class of last response its outcome, a 5xx being a lock error exactly when its text has the word; the trailing raise is reached exactly when no attempt is allowed. |
| `Retry.DefaultRequest` | broker/app/providers/proxmox/client.py:94-95 | With the default three attempts and two seconds. |
| `Retry.DestroyVm` | broker/app/providers/proxmox/provider.py:263-294 | The outer loop repeats a call after a lock error only, three times at most, with 5 and 10 seconds between. |
| `Retry.DestroyIsBounded` | broker/app/providers/proxmox/provider.py:271-294 | At most nine requests and 33 seconds of sleep, decided by the last response. |
| `Retry.DestroyBoundIsReached` | broker/app/providers/proxmox/provider.py:271-294 | A VM that stays locked reaches the bound exactly. |

## Left out

- Services.ProvisionDesktop: the commits of a provisioning, also inside a connect, are in the method bodies, but other calls do not run between them there; they do in `CheckThenWrite` and `Races`.
- Allocation.VmidsStaySafe: in this machine the checks and the insert of a new pool are one step; the source takes no lock between them, and `WriteSafety.CreateSafeIff` says when a late insert breaks the ranges.
- Handlers.DeletePoolCascade: in this method the parallel destroys run one after another, and nothing else runs between them; in `Races` they begin and end in any order among all other calls.
- Handlers.CheckStuckProvisioning: nothing runs between its read and its commit in this method; in `Races` everything does.
- Invariant.StepKeeps: there is no clock in this machine, so which rows are stale is an argument of its stuck sweep.
- Races.StepKeepsIff: a check reads all its rows at one moment, though it may be several queries; a flushed row is locked to its handler until that handler's next commit; a change of entitlements is one step.
- Allocation.OneDesktopPerUser: a connect that has committed its row, and goes on without its locks to open the session, is over for this protocol.
- Leader.TicksStartHolding: the answered heartbeat and the start of the tick are one event; a connection that dies between the two is seen as dying during the tick.
- Leader.StepKeeps: one lock key; other users of the pool that draw a returned connection in between are events in which nothing happens to the lock.
- Spares.PickNeediestPool: the candidates come as a list already filtered by cluster and sorted by name, as the query returns them; the database's collation is not modelled.
- Debounce.SessionMonitor.ProcessDesktop: the writes of a tick (end of an orphaned session, heartbeat, user, address) are not part of it; the ends of sessions are in `Handlers.EndLatestSession`.
- ProviderSync.FreshnessOverRuns: database and brokers share one clock, and one row has one `updated_at` per commit; the registry of a broker that does not lead the health checker is a run without reconciliations.
- RefreshToken.AcceptedOnce: secrets are numbers minted in order and a hash is a constructor around one, so secrets are distinct and hashing is injective; bcrypt, JWT and the access tokens are not modelled.
- RefreshToken.CookieRoundTrip: printing and parsing of UUIDs are parameters, assumed inverse to each other and free of dots.
- Retry.LockAnywhere: letters are lowered as in ASCII; how an error body is reduced to its text is an argument.
- Provider calls (Proxmox API, guest agent, LDAP) are outcomes given as arguments; timeouts, quiesce delays and power polls are among their failures.
- PostgreSQL and SQLAlchemy are maps with commit and rollback, unique and foreign keys, advisory and row locks; read-committed visibility is assumed, and lock keys are taken to be injective (`hashtext` collisions are ignored).
- Pool status `disabled`, `provisioning` and `error`, and desktop status `maintenance`, occur in the rows' types but no modelled call sets them.
- Cluster and template rows, names, nodes, tags, timestamps, error messages, audit entries, logging, telemetry and the choice of an IP address.
- Login, the auth middleware, list and detail endpoints, the dashboard, the MCP server and the portal: no invariant of their own.
- `broker/app/proxmox/`: an older client with the same retry idea.
