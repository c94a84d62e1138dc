# A verified model of ds-operator

ds-operator drives a Kubernetes cluster toward directory services, backups and restores. This project models
its three reconcile loops together with the cluster they work on, and proves what they guarantee over every
run: reconciles of any number of custom resources interleaved call by call, calls that fail or take effect
while reporting an error, operator restarts at any point, and users, jobs, storage and the garbage collector
acting in between.

## How the model is built

| file | content |
|---|---|
| `Text.dfy` | decimal numerals (`strconv`), object names |
| `Cluster.dfy` | objects, the store with uids and resource versions, volumes, directory passwords, and what each API or LDAP call does |
| `Listing.dfy` | sorted snapshot listings, `$(latest)` |
| `Controllers.dfy` | the three reconcile loops as state machines: a position decides the next call, the reply decides the next position |
| `Runs.dfy` | the transition system of all runs, and optimistic concurrency as an invariant of every run |
| `Reconcilers.dfy` | the reconcilers as imperative methods against an API server whose state may change before every call; each method makes exactly the calls of its machine |
| `Executions.dfy` | executions of these methods are runs of the transition system |
| `Separation.dfy` | what a reconcile may touch: immutable specs, name collisions, isolation of pruning |
| `Seeding.dfy` | all claims and the claim template of one reconcile are seeded alike |
| `Precreation.dfy` | claims come before replicas; updating a StatefulSet agrees with creating it |
| `Backups.dfy`, `Restores.dfy`, `DataPath.dfy` | the backup's dependency chain, the restore's gate, and the way of the data from a claim to a restored service |
| `Schedule.dfy`, `Snapshots.dfy` | when snapshots are taken |
| `Pruning.dfy`, `PruneRuns.dfy`, `Retention.dfy` | what pruning leaves, by itself, among other reconciles, and over whole runs |
| `Passwords.dfy`, `PasswordRuns.dfy`, `Throttle.dfy` | password synchronisation, by itself and over whole runs, and how often it happens |
| `Convergence.dfy`, `ServiceConvergence.dfy` | backups and restores settle after two reconciles, services after one |
| `Outcomes.dfy`, `ServiceOutcomes.dfy` | what one undisturbed reconcile brings about from its first call to its last, in the terms of the custom resource |
| `Failures.dfy` | which failing calls end a reconcile, how, and which it carries on after |
| `Serializability.dfy` | interleaved reconciles of separate custom resources equal serial ones |
| `Cascade.dfy` | what deleting a custom resource takes with it |

A world changes only through `Cluster.Perform` (a call of the operator) or `Runs.Outside` (everybody else).
`Outside` lets anyone create, replace or delete any object; each theorem names in a `Permitted` predicate the
few things it needs others not to do (for example `Backups.Permitted`, `Restores.Permitted`, `Schedule.Recorded`). `CreateOrUpdate` is modelled as the separate calls it makes (get, then
create or update), so other actors can come in between; updates carry a resource version and are refused when
it is no longer current, and updates that change nothing do nothing. Each call has one of three fates:
success, refusal, or an effect whose caller sees an error. The order of listings and of map iterations is
arbitrary.

Places where the code differs from what is written about it, all modelled as the code has them:

- The completion time of a restore whose job failed is never recorded (`controllers/directoryrestore_controller.go:93-97`
  returns before the status is written), although `api/v1alpha1/directoryrestore_types.go:45` says it is
  (`Convergence.CompletionRecordedIffNoFailure`).
- The snapshot of a restore is called `temp-<name>` (`controllers/directoryrestore_controller.go:102`); `README.md:370` calls it `<name>`.
- `PeriodMinutes*60` is a 32-bit product, so a period beyond 35791394 minutes makes snapshots due at once (`Schedule.WaitsIffPeriodFits`).
- A negative `snapshotsRetained` deletes every snapshot of the service and then panics (`Pruning.NegativeRetentionPanics`).
- A full password pass panics on a custom resource without annotations, so such a service never records one (`Throttle.RecordsIffAnnotated`, `Throttle.NoRecordWithoutAnnotation`).
- A bind for which no connection comes about panics on closing it (`pkg/ldap/client.go:72-73`), which ends the pass like
  any other failure (`Throttle.RecordsIffAnnotated`). A panic ends its reconcile; a restart of the operator is a step of its own.
- A referenced secret key that is missing or empty makes the directory generate a password (`Passwords.CompletedPassSynchronises`).
- The job is set as owner of the data claim only in memory (`controllers/job.go:159`); the model has no such reference.

## Model

| member | source | states |
|---|---|---|
| DataPath.RestoredServiceHoldsTheBackup | controllers/directoryrestore_controller.go:99-162 | in every interleaving where a backup of a claim completes, then a restore from its backup claim, then a service starts from the restore's snapshot, each of its claims starts with what the backed-up claim held when the backup's snapshot was cut, and all start alike, if unpacking undoes archiving |
| DataPath.LinkedKept | controllers/directorybackup_controller.go:116-183 | every label of a run keeps what each object on that way refers to |
| DataPath.BackupCompletes | controllers/job.go:43-55 | when the backup job completes, the backup volume holds the archive of a clone whose content the claim had at a cut |
| DataPath.RestoreCompletes | controllers/directoryrestore_controller.go:80-120 | when the restore job completes, no image of the restored volume exists yet, so every later one holds the unpacked archive |
| Precreation.ClaimsPrecedeReplicas | controllers/directoryservice_controller.go:116-129 | in every state of every run, each ordinal below the stored StatefulSet's replicas has the claim its own template would ask for, also when claims left over from scaling down get deleted |
| Precreation.ClaimStep | controllers/pvc.go:25-63 | a reconcile counts an ordinal as covered only once its claim is in the store |
| Precreation.SetStep | controllers/sts.go:59-62 | the StatefulSet is created or scaled only to replicas whose claims all exist |
| Precreation.SnapshotsAreOfOwnClaims | controllers/snapshots.go:62-74 | an automatic snapshot being created is one of an existing claim of the service if the instance is among its replicas |
| Precreation.SetKeepsItsTemplate | controllers/sts.go:57-77 | over any run a StatefulSet keeps everything of its creation but replicas and images |
| Precreation.UpdateAgreesWithCreate | controllers/sts.go:31-50 | after any run of edits, scaling, failures and retries, once a reconcile has succeeded at the StatefulSet, its replicas and images are those a fresh creation from the stored custom resource would give, and everything else is as at any earlier time, creation included |
| Precreation.SetIsScaled | controllers/sts.go:59-77 | a reconcile goes on from its StatefulSet, created, changed or found right, only once it is scaled as the custom resource says |
| Backups.JobStandsOnItsParts | controllers/directorybackup_controller.go:91-183 | at every point of every run, failing jobs, metadata changes by others and a backup claim left by an earlier backup included, an existing backup job mounts the existing backup claim and clone, the clone's source is the existing snapshot, whose source is the claim to back up |
| Backups.OwnPart | controllers/directorybackup_controller.go:96-174 | a backup reconcile changes at most the part it works on and makes it refer to what it should |
| Backups.NoErrorMeansBuilt | controllers/directorybackup_controller.go:91-191 | in every run, a backup reconcile that reports no error has found its custom resource gone or leaves all four objects in place |
| Restores.SnapshotOnlyAfterSuccess | controllers/directoryrestore_controller.go:80-131 | in every run, also one in which a failed job is deleted to try again, the restore's snapshot exists only after a completion with a success and no failure, its source is the claim that job mounts as data, and a recorded completion time means no failure |
| Restores.SnapshotMadeThroughGate | controllers/directoryrestore_controller.go:80-120 | in every run whatsoever, a restore makes its snapshot only if the job it has read in that reconcile had completed with a success and no failure |
| Restores.LookedUp | controllers/directoryrestore_controller.go:68-100 | what a restore reconcile concludes from looking up its job is true of the job |
| Restores.CleanStays | controllers/directoryrestore_controller.go:85-97 | no label of a permitted run undoes a clean completion |
| Schedule.SnapshotRate | controllers/snapshots.go:33-60 | over every run whose times get recorded: first attempt at least a period after the first enabled reconcile, attempts spaced by the current period, at most width/(60p) rounded up in any window |
| Schedule.SpacedFromFirst | controllers/snapshots.go:33-49 | no attempt before the first enabled reconcile, and all spaced from it on |
| Schedule.NoSnapshotsWhenDisabled | controllers/snapshots.go:33-36 | over every run in which snapshots stay disabled, no step of the service creates, changes or deletes one |
| Schedule.AttemptsSpaced | controllers/snapshots.go:98-110 | attempts are spaced by their 32-bit period even when creations fail |
| Schedule.WaitsIffPeriodFits | controllers/snapshots.go:51-60 | no snapshot before the end of the period, for every clock reading, if and only if the period is at most 35791394 minutes |
| Schedule.DueIffPeriodOver | controllers/snapshots.go:41-60 | within the limits a snapshot is due exactly when a time is recorded and a period has passed since |
| Schedule.WrappedPeriodFiresAtOnce | controllers/snapshots.go:52 | one minute over the limit the next snapshot is due at once |
| Snapshots.FirstTimeOnlyRecords | controllers/snapshots.go:38-49 | the first enabled reconcile records the time and changes nothing else |
| Snapshots.DueSnapshotIsTaken | controllers/snapshots.go:62-110 | a due snapshot is created of the instance's claim, without owner, under labels the service finds again, and its time recorded |
| Pruning.PruneLeaves | controllers/snapshots.go:112-130 | one deletion for each snapshot beyond the retained number whatever fails; what is left, how many, and that none up for deletion is younger than one that is not |
| Pruning.CleanPrune | controllers/snapshots.go:117-130 | a prune without failures leaves exactly the youngest retained snapshots |
| Pruning.NegativeRetentionPanics | controllers/snapshots.go:118-122 | the loop ends within the listing if and only if the retained number is not negative; otherwise it panics, after having deleted every listed snapshot whose deletion was not refused |
| Pruning.PruneKeepsLatest | controllers/snapshots.go:118-129 | with at least one retained, the newest creation second stays and newest snapshots were newest before |
| PruneRuns.PruneAmongOthers | controllers/snapshots.go:112-130 | the same for a prune while any other reconciles interleave: what is left, how many, in what order, exactly the youngest if nothing is refused, and newest snapshots were newest before |
| Retention.RetentionHolds | controllers/snapshots.go:117-130 | over every run of any number of reconciles, restarts and edits, a service never has fewer snapshots than the smaller of what it had and the retained number, and its newest one never gets older |
| Listing.SortSorts | controllers/snapshots.go:149-156 | sorting permutes the listing and orders it by creation second |
| Listing.EverySortedOrderArises | controllers/snapshots.go:151-155 | any order that respects the seconds can come out, as from an unstable sort |
| Listing.LatestIsNewest | controllers/pvc.go:69-84 | `$(latest)` names a selected snapshot of maximal creation second, and no source exactly when none is selected |
| Seeding.SeededAlike | controllers/pvc.go:36-52 | in every run with one reconcile of a service, all the claims it creates and the claim template of a StatefulSet it creates have the same spec, for `$(latest)` that of the newest snapshot at its start, if its listings succeed, one snapshot is newest and users leave its snapshots alone meanwhile; other reconciles may interleave |
| Seeding.EveryCreationIsSown | controllers/sts.go:349-351 | every claim and StatefulSet that a step of the service creates is among those |
| Seeding.NoListingNoSource | controllers/pvc.go:75-77 | what is drafted for `$(latest)` after a failed listing has no data source |
| Seeding.SentinelNeverStored | controllers/pvc.go:73-84 | over every run, also with failing listings, no claim or StatefulSet is created with a data source named `$(latest)`, unless the service has a snapshot of that name |
| Seeding.OthersFind | controllers/snapshots.go:140-143 | no other custom resource makes or prunes a snapshot that the service finds |
| Runs.ResolveKeepsTemplate | controllers/pvc.go:69-84 | resolving changes nothing but for `$(latest)`, where it replaces the name or, after a failed or empty listing, drops the source |
| Separation.StepPreserves | controllers/pvc.go:36-53 | no call changes identity, labels or spec of an existing object, but for the scale of a StatefulSet; only services delete, and only snapshots |
| Separation.SpecNeverRewritten | controllers/directoryservice_controller.go:163-172 | over any run claims and custom resources keep their specs, the sentinel included |
| Separation.DisjointIffNamesApart | controllers/directoryrestore_controller.go:102-136 | two custom resources may write the same object exactly when their names collide through `temp-`, job names or service-derived names |
| Separation.FreshLabelsMatch | controllers/util.go:22-36 | the labels on a new snapshot are found by the service that made it and by no other |
| Separation.UnlabelledNeverPruned | controllers/snapshots.go:112-130 | over any run, a stored snapshot without any service's labels, whatever its name, is never deleted by the operator, nor its spec or labels changed |
| Separation.PruneSparesOthers | controllers/snapshots.go:140-143 | over any run a service's pruning never deletes a snapshot without its labels that is not named like its own, even if others delete and make it again |
| Separation.StrangerStep | controllers/directorybackup_controller.go:91-183 | a reconcile leaves objects and storage it does not own untouched, but for what it prunes |
| Runs.StepEffect | controllers/directoryservice_controller.go:163-172 | a call creates its target as drafted, adjusts it as just read, writes back status or annotations, prunes a listed snapshot, or sets a password, and nothing else |
| Runs.SoundKept | controllers/directorybackup_controller.go:85-89 | whatever happens, an object in memory is the stored one as long as its version is current |
| Serializability.InterleavingsAreSerial | controllers/directorybackup_controller.go:50-191 | every interleaving of reconciles of any number of pairwise separate custom resources, failures included, equals all steps of the first, then all of the second and so on, in any order of them |
| Serializability.Diamond | controllers/directoryservice_controller.go:96-177 | two adjacent calls of separate custom resources can be swapped |
| Convergence.BackupSettles | controllers/directorybackup_controller.go:70-191 | undisturbed and without failures, the third backup reconcile changes nothing |
| Convergence.BackupReconcile | controllers/directorybackup_controller.go:76-191 | one such reconcile ends without error with all four objects there and adjusted, and the status reports the job |
| Convergence.RestoreSettles | controllers/directoryrestore_controller.go:72-174 | the same for restores, failed ones included |
| Convergence.RestoreReconcile | controllers/directoryrestore_controller.go:79-174 | one such reconcile of a restore whose job has not failed ends with claim and job there, the snapshot too if the job succeeded, and the status reports the job |
| Outcomes.BackupOutcome | controllers/directorybackup_controller.go:50-191 | an undisturbed backup reconcile, from first call to last: the job's times reported; whichever of claim, snapshot, clone and job was missing made with the template's claim spec, snapshot class, image and pod template, labels, annotations and owners; existing snapshot and clone adopted; nothing else changed |
| Outcomes.RestoreOutcome | controllers/directoryrestore_controller.go:51-175 | the same for restores in each state of the job: an error and no change after a failure; claim and job as described and owned; the snapshot exactly after a success; back in a minute exactly while the job has not completed |
| Convergence.CompletionRecordedIffNoFailure | controllers/directoryrestore_controller.go:85-128 | the completion of an ended restore job that is not recorded yet gets recorded by an undisturbed reconcile if and only if the job has no failure |
| ServiceConvergence.ServiceSettles | controllers/directoryservice_controller.go:116-147 | undisturbed, without failures and with no snapshot due, the second reconcile of a service changes nothing up to the passwords |
| ServiceConvergence.ServiceReconcile | controllers/directoryservice_controller.go:116-147 | one such reconcile ends its objects part with all claims, the StatefulSet and the Service there and adjusted, and the first enabled time recorded |
| ServiceConvergence.QuietReconcile | controllers/directoryservice_controller.go:96-177 | a whole reconcile of a settled service whose passwords were checked within five minutes changes nothing and comes back in 60 seconds |
| ServiceOutcomes.ServiceOutcome | controllers/directoryservice_controller.go:96-137 | an undisturbed service reconcile from its start: every ordinal's claim, the StatefulSet (scaled; if new, with user labels over the operator's) and the Service there, missing ones as the custom resource describes them, nothing else changed; then on to the snapshots if and only if these are enabled |
| ServiceOutcomes.DueOutcome | controllers/snapshots.go:33-110 | from the start, with snapshots enabled, a time recorded and the period passed since, the reconcile comes to the prune with the snapshot `<name>-<clock>` taken and the time recorded |
| ServiceOutcomes.WaitOutcome | controllers/snapshots.go:33-60 | from the start, with none due, it comes to the directory with no snapshot taken or deleted, and the time recorded if it is the first enabled one |
| ServiceOutcomes.PruneOutcome | controllers/snapshots.go:112-130 | from the listing on, a prune without refusals leaves the youngest retained snapshots with the service's labels and goes on to the directory |
| ServiceOutcomes.SyncOutcome | controllers/directoryservice_controller.go:146-177 | from the connection to the end, with a pass due and calls succeeding: all passwords but those of `uid=admin` and `uid=monitor` are their secrets' values, the pass is on record, nothing else in the store has changed |
| Passwords.PassNeverHarms | controllers/passwords.go:52-77 | for every iteration order and failure, a pass touches only managed accounts and never turns a right password wrong |
| Passwords.CompletedPassSynchronises | controllers/passwords.go:52-83 | a completed pass leaves every managed account with its secret's value if and only if none of these values is empty |
| Passwords.PassCompletes | controllers/passwords.go:52-83 | a pass whose calls succeed comes to its end after at most four calls for each account |
| Passwords.SetUpAccountsKept | controllers/passwords.go:54-57 | whatever fails and whatever the secrets hold, a pass leaves `uid=admin` and `uid=monitor` and all other services alone |
| PasswordRuns.SetUpAccountsUntouched | controllers/passwords.go:54-57 | the same over every run |
| PasswordRuns.WrongPasswordsNeverGrow | controllers/passwords.go:52-77 | over every run, interleaved, failing, retrying and restarting, the managed accounts without their secret's value only get fewer, while the secrets referred to and the table stay |
| PasswordRuns.PasswordChange | pkg/ldap/client.go:80-87 | the directory changes only where a reconcile of that service sets a password |
| Passwords.LookupStep | controllers/passwords.go:86-95 | the password tried is the value of the account's secret, empty if the key is missing |
| Passwords.SetStep | pkg/ldap/client.go:80-87 | setting the wanted password puts that account in order and no other out of order |
| Throttle.PassesAreThrottled | controllers/passwords.go:31-50 | over every run any two passes whose time got recorded are at least 300 seconds apart |
| Throttle.LoopsIffDue | controllers/passwords.go:31-50 | from reading the clock the reconcile goes into the loop over all accounts if there is no record or 300 seconds have passed since it, and otherwise skips it |
| Throttle.FailedPassLeavesTheRecord | controllers/directoryservice_controller.go:157-166 | over every run in which no full pass gets written back, failing, panicking and restarting, the recorded time stays, and a pass that was due stays due |
| Throttle.UnparseableForcesPass | controllers/passwords.go:35-41 | at an annotation that does not parse, the reconcile sets out on a full pass if and only if five minutes have passed since the epoch |
| Throttle.RecordsIffAnnotated | controllers/passwords.go:78-81 | for every iteration order and failure, a pass that comes to its end goes on to record its time if and only if the custom resource already has an annotation, and panics otherwise |
| Throttle.NoRecordWithoutAnnotation | controllers/passwords.go:78-83 | over every run in which nobody annotates the custom resource, no pass is ever recorded |
| Throttle.RecordingReadsBack | controllers/passwords.go:80 | the recorded time reads back as the time |
| Text.ParseFormat | controllers/passwords.go:36 | parsing undoes printing for all 64-bit integers |
| Naming.DataClaimInjective | controllers/pvc.go:28 | data claim names determine service and ordinal |
| Naming.AutoSnapshotInjective | controllers/snapshots.go:65 | automatic snapshot names determine service and time |
| Cascade.BackupDeletionCascades | controllers/directorybackup_controller.go:104-133 | from every state of every run, deleting a backup and collecting garbage in any order removes exactly its snapshot, clone and job; the backup claim stays |
| Cascade.ServiceDeletionKeepsData | controllers/snapshots.go:88-91 | from every state of every run, deleting a service and collecting garbage removes its StatefulSet and Service and none of its data claims and automatic snapshots |
| Cascade.CascadeOverRuns | controllers/directorybackup_controller.go:104-174 | the same while the operator goes on: once a backup or service is gone, not in flight, and no garbage is left, none of its dependents is stored, nor ever again unless it is made again, and its kept claims are there |
| Cascade.ClaimsOutlive | controllers/pvc.go:45 | over every run garbage collection and reconciles never take a data claim or a backup claim |
| Cascade.SnapshotsOutlive | controllers/snapshots.go:88-91 | over every run after a service is gone its automatic snapshots stay |
| Cascade.OwnFresh | controllers/job.go:158-161 | new objects have the owners the deletion results rely on |
| Executions.ExecutionsAreRuns | controllers/directoryservice_controller.go:96-177 | any execution of a reconciler with everything in between is a run of the transition system |
| Reconcilers.ReconcileService | controllers/directoryservice_controller.go:96-177 | makes exactly the calls of the service machine, under any interference, and returns its outcome |
| Reconcilers.ReconcileBackup | controllers/directorybackup_controller.go:50-191 | the same for backups |
| Reconcilers.ReconcileRestore | controllers/directoryrestore_controller.go:51-175 | the same for restores |
| Reconcilers.ReconcileClaims | controllers/pvc.go:21-66 | the loop over the ordinals follows the machine and stops at the first failure |
| Reconcilers.ReconcileSnapshots | controllers/snapshots.go:28-110 | first time, deadline, creation with ignored error, record |
| Reconcilers.PruneSnapshots | controllers/snapshots.go:112-157 | the delete loop follows the machine, errors ignored, panic past the listing |
| Reconcilers.UpdatePasswords | controllers/passwords.go:28-84 | throttle, loop in any order with early exit, annotations |
| Reconcilers.UpdateAccount | pkg/ldap/client.go:69-87 | look up, bind, change; a bind that gets no connection panics |
| Reconcilers.CreateOrUpdate | controllers/job.go:114-171 | get, then create or, only if something changes, update |
| Reconcilers.ClaimFromSnapshot | controllers/pvc.go:69-84 | lists, sorts and takes the last entry, or drops the source |
| Reconcilers.CreateLabels | controllers/util.go:22-36 | the loop gives the standard labels overridden by the given ones |
| Failures.BackupGivesUp | controllers/directorybackup_controller.go:70-190 | a backup ends with an error at its first failing call |
| Failures.RestoreGivesUp | controllers/directoryrestore_controller.go:72-169 | so does a restore, but for its snapshot, whose failure it ignores |
| Failures.ServiceGivesUp | controllers/directoryservice_controller.go:116-144 | a service ends with an error and comes back in a minute when a claim, secret, StatefulSet, proxy, Service, status or listing fails |
| Failures.ServiceCarriesOn | controllers/snapshots.go:98-130 | it carries on after a failing snapshot, a failing deletion, or a failing listing for `$(latest)` |
| Failures.DirectoryTrouble | controllers/directoryservice_controller.go:146-172 | trouble with the directory brings it back in 90 or 60 seconds without an error; failing to save the custom resource is an error |

## Left out

- Reads from a stale cache: every read sees the current store.
- Pruning.PruneLeaves: is about a prune by itself; PruneRuns.PruneAmongOthers and Retention.RetentionHolds are about runs.
- Pruning.CleanPrune: likewise.
- Pruning.PruneKeepsLatest: likewise.
- Passwords.PassNeverHarms: is about a pass by itself; PasswordRuns.WrongPasswordsNeverGrow is about whole runs, with secrets and accounts left alone by others.
- Convergence.BackupSettles: starts from a store in which every object has the shape of its kind, as the API server enforces.
- Cascade.BackupDeletionCascades: the exact set of removed objects is stated with the operator at rest; Cascade.CascadeOverRuns lets it go on.
- Cascade.ServiceDeletionKeepsData: likewise; see also Cascade.ClaimsOutlive and Cascade.SnapshotsOutlive.
- ServiceConvergence.ServiceSettles: leaves out the passwords, which change with the directory, and reconciles that take a snapshot.
- Listing.SortSorts: the sort works on a sequence, not in place on the slice.
- 64-bit overflow of the deadline and of elapsed times; the throttle bounds the clock by 64 bits.
- `status.currentReplicas`, events, logging, requeue timing and the work queue: any reconcile may run at any time.
- Secrets and proxy reconciles: each is one call that may fail; secrets change through others only.
- Connecting to the directory over LDAP and TLS: one call that may fail.
- Pod template details (probes, ports, mounts, environment, security context): carried along as one opaque field.
- Debug containers, the admission webhook, finalizers, volume snapshot readiness beyond having an image.
- A missing `replicas` pointer: the custom resource definition supplies a default.
