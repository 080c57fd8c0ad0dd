# mariadb-operator: verified models

A Dafny 4.11 model of the parts of the operator that can lose data, split a cluster or lock a user out,
with proofs over every input, every interleaving and every run. `dafny verify dfyconfig.toml` checks it.

| files | what they model |
|---|---|
| `Replication`, `ReplicationConfig` | the servers of a semi-sync cluster and the SQL scripts that configure them |
| `Switchover`, `SwitchoverSafety`, `SwitchoverLimits`, `SwitchoverExactly`, `SwitchoverController` | the six-phase primary switchover, its status condition and the webhook that freezes its target |
| `Fanout`, `PhaseJoin` | the goroutine fan-out of the replica phases and of the Galera recovery, and its join with a phase's scripts |
| `GaleraRecovery`, `Galera`, `GaleraController` | the choice of a bootstrap source, and the health and Galera controllers together |
| `Immutability`, `Admission`, `Defaults`, `Accessors` | the reflective immutability webhook, the validators, and defaulting and filling accessors against admission |
| `Conditions` | everything that writes a MariaDB status condition |
| `Certificates` | renewal of the webhook's CA and certificate |
| `Diff`, `MaxScale` | reconciliation of MaxScale servers, monitor and services |
| `PacketBuffer` | the double buffer of the MySQL driver |
| `Text`, `PodIdentity`, `Backup` | pod names and indexes, backup choice and retention |

Concurrent parts are systems of events: `Enabled(s, e)` says when an event can happen, `Next(s, e)` what
it does, and a theorem about `After(s, es)` is one about every interleaving of every length. The classes
(`ReplicationReconciler`, `GaleraReconciler`) run the code's own control flow, choose nondeterministically
wherever a call can fail, and record every assignment as one of those events, so that the theorems about
events apply to them. A method with `if *` covers both outcomes; a ghost count of the calls that failed
(`faults`) lets a contract say that a failure has a cause.

## What turned out false

Each has a lemma with the failing runs, on every object or cluster the text names, and one with the exact
condition.

- Safety of a switchover does not hold for every observation of the old primary. If it is not seen Ready
  when it is to be made read-only it stays writable (`UnreadyFenceMakesTwoWriters`). If it is not seen
  Ready, or its position cannot be scanned and is taken for an empty one, when it is to be waited for, a
  lagging target is opened (`UnsyncedLosesWrites`).
- The freeze of the switchover target can be undone: the check asks whether replication was enabled in
  the old object, so an update that enables Galera instead, one that moves the target and one that turns
  replication back on are all admitted in mid-switchover (`FreezeIsExact`, `DisablingMakesTwoWriters`).
- Together: from every configured cluster of two servers or more, every run has one writer, and loses
  nothing, exactly when those observations are excluded and replication is not disabled while the
  condition is set, the latter mattering only with a third server. What is seen in the other phases,
  and updates outside of a switchover, play no part (`OneWriterExactly`, `NothingLostExactly`).
- A goroutine can be left blocked in its send for ever (`LeakingRun`, `LateErrorLeaks`): exactly when more
  goroutines fail than the one error that is taken (`LeaksExactly`).
- A tagged field can be changed by going through the zero value of the top-level field it is in, exactly
  when that field is not protected by a tag itself (`LaunderExactly`).
- A failed certificate reconcile can leave a pair that does not verify (`BreakingAttempt`): exactly when
  the stored CA is not valid at the lookahead until the reconcile ends (`FailuresAreHarmlessExactly`). The
  next success repairs it.
- The MaxScale servers become the desired ones exactly if no kept server carries a parameter that was
  dropped, since a patch does not remove parameters; services need their state to agree as well
  (`TargetIsDesiredExactly`).
- The defaulted form of an object would be refused on creation exactly if the object asks for its own
  MaxScale, while the update to it is always admitted (`DefaultingIsAdmitted`).
- `PodIndex` gives back exactly the indexes that are not negative (`PodIndexOfPodName`).

## Assumptions

- Status and spec are atomic records and a controller's patch writes what it meant to write; a reconcile
  works on the resource as it read it. The number of replicas does not change during a run.
- `read_only` and the table lock keep clients from writing. Replication delivers the source's
  transactions in order, each once. Server variables survive between attempts. The read lock may or may
  not be released when an attempt stops. `START SLAVE` without a connection succeeds without effect.
- An attempt reads its target and sets its condition in one step. In the code the target is read just
  before the patch, and an update of it in between would not be frozen yet.
- A goroutine that outlives its fan-out may still run its commands on a server that is not the current
  primary; on the target, and on the other of two servers, only those that wait and restart replication.
- The configuration pass outside a switchover may reach any subset of the servers in any interleaving.
- Time is counted in whole seconds, the resolution of a certificate. Nobody but the operator writes the
  two Secrets, and generated keys are new.
- A MaxScale patch overwrites what it sends and keeps parameters it does not mention.
- Where code and documentation disagree the model follows the code: the description of `syncTimeout`
  says the switchover continues after a timeout, while the phase reports an error and is retried.

## Model

| member | source | states |
|---|---|---|
| `Replication.PrimaryScriptConfigures` | pkg/controller/replication/config.go:39-60 | from any unlocked server and for any order of the variables, a complete ConfigurePrimary ends in a writable semi-sync master with server id 10 plus its index that replicates from nobody, has forgotten its replicated position and has the accounts, with the data untouched |
| `Replication.ReplicaScriptConfigures` | pkg/controller/replication/config.go:62-88 | from any unlocked server, a complete ConfigureReplica ends in a read-only semi-sync slave of the primary with server id 10 plus its index and a running connection, its replicated position forgotten if and only if that is asked for, its binary log emptied and its data untouched |
| `Replication.SyncScriptRestarts` | pkg/controller/replication/switchover.go:360-368 | a complete wait script, like the reset after a timeout, leaves the slave running iff it has a source, forgets the replicated position and changes nothing else |
| `Replication.ExecSets` | pkg/sql/sql.go:366-373 | variables set in any order touch the three role variables only and end at the values named |
| `ReplicationConfig.SqlClient.Run` | pkg/sql/sql.go:375-406 | one command that may fail before or after it took effect; without a failure it succeeds |
| `ReplicationConfig.SqlClient.SetSystemVariables` | pkg/controller/replication/config.go:90-126 | what was set so far is a beginning of one order of all the variables; it fails only by a failed call, and success means all of them |
| `ReplicationConfig.SqlClient.FenceServer` | pkg/controller/replication/config.go:64-76 | wherever it stops, a beginning of the fencing commands was run; it fails only by a failed call, and success ends writes |
| `ReplicationConfig.SqlClient.ConfigurePrimary` | pkg/controller/replication/config.go:39-60 | wherever it stops, a beginning of the primary script was run; it fails only by a failed call, and success means the whole script and the primary role with server id 10 plus the index |
| `ReplicationConfig.SqlClient.ConfigureReplica` | pkg/controller/replication/config.go:62-88 | wherever it stops, a beginning of the replica script was run; it fails only by a failed call, and success means the whole script and the replica role with server id 10 plus the index |
| `Switchover.StagedStart` | pkg/controller/replication/switchover.go:110-358 | what a configuration pass, an attempt or its next phase hands out is what the phase allows on the old primary, the new one and the others, whatever is observed |
| `Switchover.StagedNext` | api/v1alpha1/mariadb_webhook.go:175-194 | every event keeps a switchover going to its frozen target with the work its phase allows, if no update disables replication while the condition is set |
| `Switchover.GuardedNextPhase` | pkg/controller/replication/switchover.go:110-254 | entering a phase keeps the single-writer invariant, if the old primary is seen Ready when it is to be made read-only |
| `Switchover.GuardedStep` | pkg/controller/replication/switchover.go:171-235 | each single SQL command of each goroutine keeps it |
| `Switchover.GuardedTimeout` | pkg/controller/replication/switchover.go:192-213 | a replica that does not catch up in time keeps it, its phase being bound to fail |
| `Switchover.GuardedStray` | pkg/controller/replication/switchover.go:261-318 | commands of goroutines that outlived their fan-out keep it, on the target too |
| `Switchover.GuardedStop` | pkg/controller/replication/switchover.go:72-92 | an attempt that starts, stops anywhere, finishes, or passes over a replica that is gone keeps it |
| `Switchover.FencedNext` | pkg/controller/replication/switchover.go:26-92 | every event keeps it, with readiness asked for in one phase only |
| `Switchover.FencedAfter` | pkg/controller/replication/switchover.go:26-92 | it holds after every such run |
| `Switchover.KeptWrite` | pkg/controller/replication/switchover.go:110-148 | a client write keeps the data invariant: only the one authority can take it |
| `Switchover.KeptReplicate` | pkg/controller/replication/config.go:128-161 | replication keeps the data invariant |
| `Switchover.KeptNextPhase` | pkg/controller/replication/switchover.go:150-254 | entering a phase keeps the data invariant, if the old primary is seen Ready and scanned when it is to be waited for: nobody is opened before all replicas hold its last write |
| `Switchover.KeptStep` | pkg/controller/replication/switchover.go:150-254 | each single SQL command keeps the data invariant; the binary log that is waited for is never emptied |
| `Switchover.KeptTimeout` | pkg/controller/replication/switchover.go:192-213 | a timed out wait keeps the data invariant |
| `Switchover.GoodNext` | pkg/controller/replication/switchover.go:26-92 | every planned event keeps both invariants |
| `Switchover.GoodAfter` | pkg/controller/replication/switchover.go:26-92 | both hold after every planned run |
| `Switchover.LockNext` | pkg/controller/replication/switchover.go:321-340 | only the old primary is ever locked, and it will be unlocked, if it is seen Ready when it becomes a replica, whatever was seen before |
| `SwitchoverSafety.FencingRunsHaveOneWriter` | pkg/controller/replication/switchover.go:39-148 | through any number of attempts that stop at any command and start over, at most one server is writable, as long as the old primary is seen Ready when it is to be made read-only and no update disables replication while the condition is set |
| `SwitchoverSafety.PlannedRunsAreSafe` | pkg/controller/replication/switchover.go:39-236 | if it is also seen Ready and scanned when it is to be waited for, a writable server holds every write ever accepted, and some server always does |
| `SwitchoverSafety.UnfinishedKeepsStatus` | pkg/controller/replication/switchover.go:39-43 | until it finishes, a switchover keeps the recorded primary, its target and its condition, whatever is observed |
| `SwitchoverSafety.CrashConvergence` | pkg/controller/replication/switchover.go:72-86 | whatever earlier attempts left and saw, with the lock given back, an attempt that runs to its end gives exactly the topology of its target: it is the one writable semi-sync master and replicates from nobody, the others are its unlocked read-only semi-sync slaves, and no two servers share an id |
| `SwitchoverSafety.PhaseHasEffect` | pkg/controller/replication/switchover.go:110-358 | from every state and through every interleaving, a phase has on each server that no transaction touched meanwhile, once its goroutine is through, the effect named for it: the old primary locked, then read-only, at last an unlocked replica of the target; the replicas restarted, then reconnected; the target opened; and no other |
| `SwitchoverSafety.WaitRestartsReplication` | pkg/controller/replication/switchover.go:150-236 | from every state in which the replicas are waited for, once all are through, timed out or not, with writes, replication and updates in between, each has its settings back and replicates from the source it had, holding all it held |
| `SwitchoverSafety.TopologyIsArranged` | pkg/controller/replication/config.go:301-303 | the topology of a primary is the arrangement spelled out server by server, with ids apart |
| `SwitchoverSafety.ConvergesFrom` | pkg/controller/replication/switchover.go:238-358 | from any point of an attempt, the rest of it leads to that topology, with writes, replication and updates in between |
| `SwitchoverSafety.ConfigIsDataFree` | pkg/controller/replication/config.go:39-88 | the settings a script leads to do not depend on the data |
| `SwitchoverSafety.UnlockedReplica` | pkg/controller/replication/switchover.go:321-358 | the old primary's last script makes a replica of it whether it was locked or not |
| `SwitchoverSafety.FreezeIsExact` | api/v1alpha1/mariadb_webhook.go:175-194 | admission keeps the target iff a switchover runs and the old object has replication enabled, and then keeps automatic failover off iff it was off; turning it off is always admitted |
| `SwitchoverLimits.UnreadyFenceMakesTwoWriters` | pkg/controller/replication/switchover.go:130-148 | on every configured cluster that has caught up, with a writable primary, an attempt whose only fault is that it does not see it Ready when it is to be made read-only makes two writers |
| `SwitchoverLimits.UnreadyFenceLosesWrites` | pkg/controller/replication/switchover.go:130-148 | and after that attempt has stopped, a write the new primary never gets is accepted |
| `SwitchoverLimits.UnsyncedLosesWrites` | pkg/sql/sql.go:342-351 | on every configured cluster whose target lags, an attempt whose only fault is that the old primary is not Ready or not scanned when it is to be waited for opens a primary that misses a write |
| `SwitchoverLimits.DisablingMakesTwoWriters` | api/v1alpha1/mariadb_webhook.go:94-194 | from every state in which a stopped attempt left its target open, whether or not that has taken writes, with a third server and all servers at the old position, three admitted updates and a planned attempt for the third server make two writers |
| `SwitchoverLimits.Thaw` | api/v1alpha1/mariadb_webhook.go:66-87 | the three updates are admitted one after the other and move the target |
| `SwitchoverExactly.SweepAll` | pkg/controller/replication/controller.go:172-218 | on every configured cluster, a configuration pass over all servers that runs to its end gives the topology of the current primary; no data is lost, replicas keep their replicated positions, and the primary gets its accounts |
| `SwitchoverExactly.CatchesUp` | pkg/controller/replication/config.go:128-161 | replicas that replicate from the primary can reach its position by replication alone |
| `SwitchoverExactly.Prepare` | pkg/controller/replication/controller.go:172-218 | every configured cluster of two servers or more, whatever state its servers are in, can be brought to one with a writable primary, replicating replicas and another target |
| `SwitchoverExactly.PairedNext` | api/v1alpha1/mariadb_webhook.go:175-194 | with two servers, no update of the target or of replication affects either invariant |
| `SwitchoverExactly.ThawRun` | api/v1alpha1/mariadb_webhook.go:94-194 | with three servers or more, an attempt stopped with its target open and three admitted updates lead to two writers |
| `SwitchoverExactly.OneWriterExactly` | pkg/controller/replication/switchover.go:130-148 | from every configured cluster of two servers or more, whatever else may be observed: all runs have one writer iff the old primary is always seen Ready when it is to be made read-only and, with a third server, replication is never disabled while the condition is set |
| `SwitchoverExactly.NothingLostExactly` | pkg/controller/replication/switchover.go:130-236 | and no run loses a write iff, besides, it is always seen Ready and scanned when it is to be waited for |
| `SwitchoverController.ReplicationReconciler.Others` | api/v1alpha1/mariadb_webhook.go:66-87 | any number of writes, replications, updates and stray commands between two commands are events of the protocol; without stray ones they keep an attempt on its way |
| `SwitchoverController.ReplicationReconciler.RunCommand` | pkg/controller/replication/switchover.go:110-148 | running a goroutine's next command is an event of the protocol |
| `SwitchoverController.ReplicationReconciler.TimeOut` | pkg/sql/sql.go:408-425 | a timed out wait is an event of the protocol |
| `SwitchoverController.ReplicationReconciler.FanOut` | pkg/controller/replication/switchover.go:171-235 | a phase's goroutines, interleaved in any way, run to their end or report an error, which takes a failed call or a timeout; success means all of them are done |
| `SwitchoverController.ReplicationReconciler.Phases` | pkg/controller/replication/switchover.go:72-79 | the loop over the phases ends, in the last phase with all work done or with an error, which takes a failed call or a timeout |
| `SwitchoverController.ReplicationReconciler.RunPhases` | pkg/controller/replication/switchover.go:72-92 | the phases and the last patch: success records the target, clears the condition and leaves the target's topology; failure has a cause and keeps both |
| `SwitchoverController.ReplicationReconciler.Begin` | pkg/controller/replication/switchover.go:39-43 | the condition is set before the first phase |
| `SwitchoverController.ReplicationReconciler.Complete` | pkg/controller/replication/switchover.go:81-86 | the condition is cleared together with the recording of the target; the servers have its topology if nothing was passed over, no stray command ran and the old primary was seen Ready to be unlocked |
| `SwitchoverController.ReplicationReconciler.ReconcileSwitchover` | pkg/controller/replication/switchover.go:26-108 | a call keeps one writer and all writes under the conditions above; a resource behind MaxScale, one neither configured nor switching and one whose target is the current primary are left alone; otherwise success records the target, clears the condition and, without stray commands or passed-over replicas and with the old primary seen Ready to be unlocked, leaves its topology; failure takes a failed call or a timeout and leaves the recorded primary and the condition |
| `Fanout.JoinIsSound` | pkg/controller/replication/switchover.go:171-235 | for every number of goroutines and every interleaving, nil is returned only if each returned without error, and an error only if one failed |
| `Fanout.NoDeadlock` | pkg/controller/replication/switchover.go:261-318 | while the select waits, something other than a cancellation can happen |
| `Fanout.LateErrorLeaks` | pkg/controller/galera/recovery.go:222-277 | a goroutine that is sending after the select returned stays blocked for ever, and so does the one that closes the done channel |
| `Fanout.LeaksExactly` | pkg/controller/replication/switchover.go:171-235 | a run that is over leaves a goroutine behind iff more failed than the one error that was taken, and the done channel is closed iff none is left and the loop did not return early |
| `Fanout.LeakingRun` | pkg/controller/galera/recovery.go:220-278 | such a run exists for every two goroutines or more, and for one that is cancelled |
| `Fanout.InvNext` | pkg/controller/replication/switchover.go:171-235 | every step keeps the WaitGroup equal to the goroutines that hold it, and the one received error equal to the result |
| `PhaseJoin.NilMeansAllDone` | pkg/controller/replication/switchover.go:171-235 | for every interleaving, a phase whose fan-out returns nil has run all its scripts to their end without a timeout |
| `GaleraRecovery.RecoveryStatus.SafeToBootstrap` | pkg/controller/galera/recovery_status.go:134-155 | for every map order, a returned Pod is listed and recorded safe with a valid position; no Pod is safe iff that error is returned |
| `GaleraRecovery.RecoveryStatus.IsComplete` | pkg/controller/galera/recovery_status.go:157-173 | true iff there are Pods and each reported a valid position |
| `GaleraRecovery.RecoveryStatus.MostAdvanced` | pkg/controller/galera/recovery_status.go:187-206 | the result reports the maximum over all valid positions of all Pods, the last Pod of a tie; none iff nothing valid was reported |
| `GaleraRecovery.RecoveryStatus.BootstrapSource` | pkg/controller/galera/recovery_status.go:175-210 | the source is a listed safe Pod whenever there is one, else the most advanced Pod of a complete recovery; an error iff neither exists |
| `Galera.InvNext` | pkg/controller/galera/controller.go:76-122 | every step of either controller keeps the invariant of both |
| `Galera.ReadyMeansNoBootstrap` | pkg/controller/galera/controller.go:86-105 | in every reachable state with GaleraReady true, no Pod has bootstrap enabled and nothing is being recovered |
| `Galera.HealthKeepsRecovery` | controller/statefulset_galera_controller.go:52-77 | the health controller writes only over a cluster marked ready, so it never wipes a recovery in progress |
| `Galera.BootstrapsAreSpaced` | pkg/controller/galera/recovery.go:43-57 | once a bootstrap is recorded, no Pod is told to bootstrap until its time plus the timeout has passed and the record was reset |
| `Galera.RecordedNext` | pkg/controller/galera/recovery_status.go:113-132 | one step keeps the record, or resets it after its time |
| `GaleraController.GaleraReconciler.Others` | controller/statefulset_galera_controller.go:39-80 | time, Pods and the health controller, in any number and order, are events of the system |
| `GaleraController.GaleraReconciler.StateByPod` | pkg/controller/galera/recovery.go:220-278 | fetching the Pods' states, up to any failure, is a sequence of events on the local record; success means that every Pod was asked |
| `GaleraController.GaleraReconciler.RecoveryByPod` | pkg/controller/galera/recovery.go:280-377 | recovering the Pods' positions, up to any failure, is a sequence of events on the local record; success means that every Pod without one was asked |
| `GaleraController.GaleraReconciler.PatchRecovery` | pkg/controller/galera/recovery.go:414-418 | success persists the local record, a failure leaves the status alone |
| `GaleraController.GaleraReconciler.FindSource` | pkg/controller/galera/recovery.go:59-95 | a source that is found is one of the record as collected, a safe Pod before all others; without a failed call none is found only if every Pod was asked and some have no valid position |
| `GaleraController.GaleraReconciler.BootstrapFrom` | pkg/controller/galera/recovery.go:379-412 | telling a Pod to bootstrap and recording it are events in that order, with a failure possible between them; success means that the source was told and is on record, and no other Pod is ever told |
| `GaleraController.GaleraReconciler.RecoverCluster` | pkg/controller/galera/recovery.go:43-102 | a recorded bootstrap is waited for until its timeout and then dropped, with no Pod told; otherwise at most one Pod is told, success means that a source of the record was told and recorded, and failure takes a failed call or a Pod without a valid position |
| `GaleraController.GaleraReconciler.DisableBootstrap` | pkg/controller/galera/controller.go:139-156 | success means bootstrap was disabled in every Pod; it fails only by a failed call |
| `GaleraController.GaleraReconciler.MarkHealthy` | pkg/controller/galera/controller.go:86-105 | a cluster whose Pods are all ready is marked ready and configured once bootstrap is disabled everywhere, unless a call fails |
| `GaleraController.GaleraReconciler.HealthController` | controller/statefulset_galera_controller.go:39-80 | it begins to poll iff the cluster is configured and not marked not ready, and marks it not ready and drops the record iff the poll found it unhealthy |
| `GaleraController.GaleraReconciler.Reconcile` | pkg/controller/galera/controller.go:76-122 | a lost cluster without a bootstrap on record gets a source told and recorded, one with a record is left to it until its time and then has it dropped; one whose Pods are all ready is marked ready and configured; any other is left alone; failure takes a failed call or, in a lost cluster, a Pod without a valid position; and after every reconcile a cluster marked ready has no Pod with bootstrap enabled |
| `Immutability.ValidateInmutable` | pkg/webhook/inmutable_webhook.go:69-122 | the error list holds exactly the broken paths: tagged fields changed against their tag whose parents are non-zero structs in both objects |
| `Immutability.WalkField` | pkg/webhook/inmutable_webhook.go:82-113 | below one field, through its struct or the common indices of its slice, exactly the broken paths are found |
| `Immutability.BrokenIsLookup` | pkg/webhook/inmutable_webhook.go:124-145 | a path is broken iff looking it up in both objects side by side finds the field and its tag forbids the change |
| `Immutability.AcceptedKeeps` | pkg/webhook/inmutable_webhook.go:45-67 | an accepted update changes no tagged field against its tag at any path both objects have |
| `Immutability.HistoryKeeps` | pkg/webhook/inmutable_webhook.go:124-145 | along any accepted history in which the parents stay, an inmutable field keeps its value and an inmutableinit field its first non-zero one |
| `Immutability.LaunderExactly` | pkg/webhook/inmutable_webhook.go:73-145 | what is in a top-level field, whatever is tagged below it, can be changed by accepted updates iff that field itself is not protected |
| `Immutability.ZeroIsUnique` | pkg/webhook/inmutable_webhook.go:163-168 | a value counts as zero iff it is the zero value of its type, at any depth |
| `Conditions.ReadinessIsSafe` | controller/mariadb_controller_status.go:36-54 | in every status the writers reach, Ready true implies that PrimarySwitched, BackupRestored and GaleraReady are not false |
| `Conditions.RestoredOnce` | controller/mariadb_controller.go:327-381 | once restored, a backup stays restored whatever is written |
| `Conditions.ApplySets` | pkg/condition/primary_switched.go:11-34 | a write gives a condition a status iff that write sets it, and leaves all others as they were |
| `Conditions.LastWriterDecides` | api/v1alpha1/mariadb_types.go:333-339 | after any run of writers a condition has the status its last writer gave it, or the one it had |
| `Conditions.ReadyReturns` | controller/mariadb_controller_status.go:21-55 | whatever the conditions were, once a switchover, a recovery and a restore have ended the resource is Ready iff all its replicas are |
| `Conditions.MariaDBStatus.SetCondition` | api/v1alpha1/mariadb_types.go:333-339 | one condition of the kind, with the new status; the others are untouched |
| `Conditions.MariaDBStatus.SetPrimarySwitching` | pkg/condition/primary_switched.go:11-25 | sets Ready and PrimarySwitched to false |
| `Conditions.MariaDBStatus.SetPrimarySwitched` | pkg/condition/primary_switched.go:27-34 | sets PrimarySwitched to true and leaves Ready |
| `Conditions.MariaDBStatus.SetGaleraNotReady` | pkg/condition/galera_ready.go:8-21 | sets Ready and GaleraReady to false |
| `Conditions.MariaDBStatus.SetGaleraReady` | pkg/condition/galera_ready.go:23-30 | sets GaleraReady, and with it GaleraConfigured, to true and leaves Ready |
| `Conditions.MariaDBStatus.SetReadyFailed` | pkg/condition/ready.go:42-49 | sets Ready to false |
| `Conditions.MariaDBStatus.SetReadyWithStatefulSet` | pkg/condition/ready.go:55-71 | Ready iff there are replicas and all are ready; nothing else changes |
| `Conditions.MariaDBStatus.SetRestoring` | pkg/condition/backup_restored.go:8-21 | sets Ready and BackupRestored to false |
| `Conditions.MariaDBStatus.ReconcileStatus` | controller/mariadb_controller_status.go:21-55 | Ready is false if the MaxScale is missing, is left alone while switching, restoring or recovering, and is else set iff all replicas are ready; nothing else changes |
| `Conditions.MariaDBStatus.ReconcileRestore` | controller/mariadb_controller.go:327-381 | BackupRestored becomes false when a restore is started on a healthy resource and true when it completes, for a resource that bootstraps from a backup that is not restored; otherwise nothing changes |
| `Certificates.KeyPairStep` | pkg/controller/certificate/controller.go:124-157 | a Secret changes only to a pair just made with a new key, always when a refresh succeeds, and never without a refresh when it holds a pair; what is returned is what is stored; it fails iff a call it makes fails or what is stored cannot be read |
| `Certificates.CAStepHolds` | pkg/controller/certificate/controller.go:92-106 | the CA is left alone if it is valid at the lookahead throughout, and kept by a success only if it was at some instant |
| `Certificates.CertStepHolds` | pkg/controller/certificate/controller.go:108-120 | success leaves a certificate the given CA signed that lasts to the lookahead, a new one whenever the CA is new |
| `Certificates.ReconciledConforms` | pkg/controller/certificate/controller.go:92-122 | for every combination of failures and delays: success leaves a pair that verifies from then until the start plus the lookahead; the CA changes only when it is not valid at the lookahead; a failure that spared the CA leaves the old certificate or one that CA signed; one that replaced only the CA leaves nothing that verifies |
| `Certificates.CertReconciler.Reconcile` | pkg/controller/certificate/controller.go:92-122 | the reconcile, with whatever failures it meets, is one of those outcomes |
| `Certificates.WorkingCallsSucceed` | pkg/controller/certificate/controller.go:92-122 | when every call works, the reconcile succeeds iff no Secret is unreadable |
| `Certificates.SoundPairIsKept` | pkg/controller/certificate/controller.go:92-122 | a stored pair that is valid at the lookahead until the reconcile ends is left alone, whatever fails |
| `Certificates.FailureKeeps` | pkg/controller/certificate/controller.go:92-122 | after a failure that spared the CA the stored pair verifies as long as before |
| `Certificates.BreakingAttempt` | pkg/controller/certificate/controller.go:100-113 | when the CA will not be valid at the lookahead at some instant, an attempt that ends then can leave nothing that verifies |
| `Certificates.FailuresAreHarmlessExactly` | pkg/controller/certificate/controller.go:100-101 | all failing attempts that end by an instant leave a verifying pair verifying iff the stored CA is valid at the lookahead of that instant |
| `Certificates.NeverLapses` | pkg/controller/certificate/controller.go:201-203 | along any history in which attempts start within the lookahead of the last success and fail only while the stored CA is valid at the lookahead, the stored pair verifies at every instant between attempts |
| `Diff.Sort` | pkg/datastructures/datastructures.go:92-94 | the sorted list of exactly the given keys |
| `Diff.ListsIsUnique` | pkg/datastructures/datastructures.go:71-101 | whatever order the maps are iterated in, each list comes out the same |
| `Diff.Partition` | pkg/datastructures/datastructures.go:71-101 | each key of either index is in exactly one list, once |
| `Diff.Diff` | pkg/datastructures/datastructures.go:71-101 | the sorted lists of the keys only here, only there and in both |
| `Diff.KeysOf` | pkg/datastructures/datastructures.go:29-37 | each key once |
| `MaxScale.HalfwayLeadsOn` | controller/maxscale_controller.go:846-884 | a pass cut short at any call removes no desired entry and does not change where the next one leads |
| `MaxScale.FailuresLeaveNoTrace` | controller/maxscale_controller.go:822-885 | after any number of failed passes the outcome of a successful one is what it would have been without them |
| `MaxScale.TargetIsDesiredExactly` | controller/maxscale_controller_api.go:62-82 | servers become the desired ones iff no kept one has a parameter that is not desired; services iff, besides, kept ones are in the desired state and new ones are not to be suspended |
| `MaxScale.RepeatIsIdle` | controller/maxscale_controller.go:831-884 | a pass over a converged index adds nothing, deletes nothing and changes nothing |
| `MaxScale.Registry.Create` | controller/maxscale_controller.go:846-858 | a creation that succeeds settles its entry; one that fails stays on the way |
| `MaxScale.Registry.Delete` | controller/maxscale_controller.go:860-869 | a deletion that succeeds settles its entry, and only unwanted ones are deleted |
| `MaxScale.Registry.Patch` | controller/maxscale_controller.go:871-883 | a patch that succeeds settles its entry; one that fails stays on the way |
| `MaxScale.Registry.Pass` | controller/maxscale_controller.go:822-885 | a pass fails iff a call fails; one that succeeds reaches its target exactly, any other stays on the way |
| `MaxScale.MaxScaleReconciler.ServerRelationships` | controller/maxscale_controller_api.go:84-95 | the sorted list of the existing servers that are desired, unless they cannot be listed |
| `MaxScale.MaxScaleReconciler.ReconcileMonitor` | controller/maxscale_controller.go:887-917 | success links the monitor to exactly the existing servers that are desired; it fails iff a call fails |
| `MaxScale.MaxScaleReconciler.ReconcileServices` | controller/maxscale_controller.go:934-996 | a pass over the services, each linked to exactly the existing servers that are desired |
| `MaxScale.MaxScaleReconciler.Reconcile` | controller/maxscale_controller.go:155-170 | when all three phases succeed, servers and services have reached their targets, and the monitor and every desired service are linked to exactly the desired servers; it fails iff a call fails |
| `Text.SplitJoins` | pkg/statefulset/statefulset.go:33 | splitting loses nothing and no part holds the separator |
| `Text.AtoiOfFormat` | pkg/statefulset/statefulset.go:25-37 | reading a formatted 64-bit number gives it back |
| `PodIdentity.PodIndexOfPodName` | pkg/statefulset/statefulset.go:24-42 | for any name, hyphens included, the index comes back iff it is not negative; a negative one loses its sign |
| `PodIdentity.PodIdentityInjective` | pkg/statefulset/statefulset.go:12-30 | a pod's name and its address identify its index |
| `PodIdentity.AddressParts` | pkg/statefulset/statefulset.go:12-30 | the parts of an address are the pod, its service, its namespace, svc and those of the cluster's domain |
| `PodIdentity.SetMariadbDefaults` | controller/maxscale_controller.go:244-265 | existing servers are kept in place, missing ones are those of their pods, surplus ones are dropped |
| `PodIdentity.PodIndexForServer` | controller/mariadb_controller_status.go:122-141 | the pod whose address is that of the first server with the name, none iff there is none |
| `PodIdentity.ScaledIsNamed` | controller/maxscale_controller.go:244-265 | after any scaling history from an empty list, server i has the name and address of pod i |
| `PodIdentity.MapsBack` | controller/mariadb_controller_status.go:122-141 | after any such history the server of pod i maps back to i while the cluster has that pod, and to nothing otherwise |
| `Backup.ValidFilesAreNamed` | pkg/backup/backup.go:69-75 | the valid names are exactly backup.DATE.sql with a dot-free date that can be read |
| `Backup.DateIsExact` | pkg/backup/backup.go:91-97 | a file has a date iff its name is three dot-free parts of which the second can be read |
| `Backup.DistanceIsExact` | pkg/backup/backup.go:32 | the distance is the time between file and target, either way, up to the largest duration |
| `Backup.SelectIsPointwise` | pkg/backup/backup.go:52-66 | files are judged one by one, and kept in their order |
| `Backup.SelectCounts` | pkg/backup/backup.go:52-66 | each file is selected as often as it is listed if it is older than the limit, and else not at all |
| `Backup.SortByDiff` | pkg/backup/backup.go:45-47 | an unstable sort by distance: sorted, and the same entries |
| `Backup.FirstIsClosest` | pkg/backup/backup.go:45-48 | the first of the sorted candidates is a closest file |
| `Backup.GetBackupTargetFile` | pkg/backup/backup.go:24-49 | a returned file is listed, can be read and no readable file is closer, in saturating durations; an error iff none can be read |
| `Backup.GetOldBackupFiles` | pkg/backup/backup.go:52-66 | exactly that selection |
| `Backup.OldIsExact` | pkg/backup/backup.go:61-63 | saturation matters only for the largest limit: with any other, old means an age beyond it |
| `Backup.ChoiceCommutesWithRetention` | pkg/backup/backup.go:24-66 | choosing after cleanup is as close as choosing before iff some closest file is kept |
| `PacketBuffer.Conn.Read` | licenses/go-licenses/github.com/go-sql-driver/mysql/buffer.go:89-90 | bytes move from the connection behind the first n of the array, none lost, none touched |
| `PacketBuffer.Buffer.constructor` | licenses/go-licenses/github.com/go-sql-driver/mysql/buffer.go:37-44 | an empty buffer in front of the connection's stream |
| `PacketBuffer.Buffer.Flip` | licenses/go-licenses/github.com/go-sql-driver/mysql/buffer.go:49-51 | changes the backing array of the next fill, across the counter's wrap-around, and not the stream |
| `PacketBuffer.Buffer.Grow` | licenses/go-licenses/github.com/go-sql-driver/mysql/buffer.go:60-75 | the backing array aimed at if it is large enough, else a new one of the next multiple of the default size, cached unless too large |
| `PacketBuffer.Buffer.Move` | licenses/go-licenses/github.com/go-sql-driver/mysql/buffer.go:60-82 | the unread bytes are at the start of a large enough array, and only the backing array aimed at is written |
| `PacketBuffer.Buffer.Receive` | licenses/go-licenses/github.com/go-sql-driver/mysql/buffer.go:84-111 | success gives at least the bytes needed and the same stream; an error is one of the connection, and keeps the unread bytes |
| `PacketBuffer.Buffer.Fill` | licenses/go-licenses/github.com/go-sql-driver/mysql/buffer.go:54-112 | the same stream on success, the same unread bytes on an error; only the backing array aimed at is written, and the other is apart from the current one |
| `PacketBuffer.Buffer.ReadNext` | licenses/go-licenses/github.com/go-sql-driver/mysql/buffer.go:116-128 | the next bytes of the stream, which continues behind them; bounds hold throughout, and after one flip the array of the last fill is unchanged |
| `PacketBuffer.Buffer.ReadRun` | licenses/go-licenses/github.com/go-sql-driver/mysql/buffer.go:49-128 | what any sequence of reads returns, with flips anywhere, is a beginning of the stream: all the bytes asked for, or fewer after an error of the connection |
| `PacketBuffer.Buffer.TakeBuffer` | licenses/go-licenses/github.com/go-sql-driver/mysql/buffer.go:134-151 | refused iff bytes are unread; the current array if it is large enough, else a new one of the size asked for, kept unless too large; never the array kept for the next flip |
| `PacketBuffer.Buffer.Store` | licenses/go-licenses/github.com/go-sql-driver/mysql/buffer.go:175-182 | refused iff bytes are unread; taken only if larger and not too large; the stream is unchanged, and the arrays stay apart unless it is the other backing array |
| `Defaults.Idempotent` | api/v1alpha1/mariadb_types.go:368-412 | defaulting twice is defaulting once |
| `Defaults.DefaultingSettles` | api/v1alpha1/mariadb_types.go:368-412 | defaulting settles every object, and changes exactly those that are not settled |
| `Defaults.BareDefaults` | api/v1alpha1/mariadb_types.go:368-412 | what an object that says nothing becomes, with the ports 3306 and 9104 |
| `Defaults.FillsReportsNothing` | pkg/webhook/inmutable_webhook.go:69-145 | any update that only fills nil or zero fields that are not inmutable, at any depth below untagged structs, breaks no path |
| `Defaults.DefaultedFills` | api/v1alpha1/mariadb_types.go:368-412 | defaulting only fills, for any types and tags of the fields it does not touch |
| `Defaults.DefaultingIsAccepted` | pkg/webhook/inmutable_webhook.go:45-67 | the immutability webhook accepts the update that defaulting makes |
| `Defaults.DefaultingIsAdmitted` | api/v1alpha1/mariadb_webhook.go:45-87 | whatever can be created can be updated to its defaulted form, even in mid-switchover; that form could be created iff the object does not ask for its own MaxScale |
| `Admission.CommonAnswers` | api/v1alpha1/mariadb_webhook.go:94-254 | of all refusals, each with its own condition, the validators run in turn report the first that is due |
| `Admission.ValidExactly` | api/v1alpha1/mariadb_webhook.go:45-63 | an object is valid iff no refusal is due |
| `Admission.SwitchoverAnswers` | api/v1alpha1/mariadb_webhook.go:175-194 | while switching, a changed target is refused before automatic failover that is turned on, both only if replication was enabled |
| `Admission.ValidateCreate` | api/v1alpha1/mariadb_webhook.go:45-63 | a creation is refused for the first reason that is due, and admitted iff the object is valid |
| `Admission.ValidateUpdate` | api/v1alpha1/mariadb_webhook.go:66-87 | an update is refused for a changed tagged field, else for the first reason that is due, else because of a switchover; it is admitted iff none applies |
| `Accessors.FilledTwice` | api/v1alpha1/mariadb_replication_types.go:217-238 | filling twice is filling once, whatever the defaults |
| `Accessors.FilledLeaf` | api/v1alpha1/mariadb_replication_types.go:96-105 | what was set stays, and what was not becomes what the defaults say |
| `Accessors.ReplicationIsFilled` | api/v1alpha1/mariadb_replication_types.go:142-238 | with full defaults every replication setting is set afterwards, and whether replication is enabled is left alone |
| `Accessors.GaleraIsFilled` | api/v1alpha1/mariadb_galera_types.go:66-293 | with full defaults every Galera setting is set afterwards, and whether Galera is enabled is left alone |
| `Accessors.FillingIsAccepted` | pkg/webhook/inmutable_webhook.go:69-145 | the immutability webhook accepts an object in which one field was filled, if the filling spares inmutable fields and goes on only inside untagged structs |
| `Accessors.AccessorsAreHarmless` | api/v1alpha1/mariadb_types.go:414-430 | so it is for both accessors, for any types and tags of what they do not look into, and calling them again changes nothing |

## Left out

- Liveness of retries: that an attempt eventually succeeds depends on MariaDB itself.
- Scaling while a switchover or a recovery runs; the number of servers is fixed in those models.
- What MaxScale does with the primary of a cluster behind it; the operator's own switchover leaves such a cluster alone.
- Failover from a primary that is not Ready, apart from what its observations make possible.
- Kubernetes API behaviour: stale caches, lost updates between controllers, patch encoding.
- SQL text, accounts and passwords; DSN formatting, HTTP and REST transport, S3 storage.
- X.509 encoding, signatures and key generation; keys are numbers that are never repeated.
- Go's time parsing and formatting: an abstract partial function from strings to instants.
- MaxScale listeners, and the suspension of monitors, services and listeners.
- The values of the replication and Galera defaults, and that the Galera accessor shares some of them between objects.
- Panics of the reflective walk on exported fields below unexported ones, and the field names in its error messages.
- Object builders, RBAC, Services, Deployments, command lines, logging and events.
- `PacketBuffer.Buffer.Receive`: the bytes a failing call has received are gone, as in the code, so nothing is promised about later reads than that the unread bytes come first and the rest of the connection follows.
- `Certificates.CertReconciler.Reconcile`: an unreadable Secret makes every reconcile fail, as in the code; no recovery from it is claimed.
