# Verified models of the deployment platform's persistent protocols

Dafny models of the protocols that keep a small deployment platform consistent while requests,
alarms and crashes interleave: the hosted control plane (TypeScript on Durable Objects,
`apps/control-cloud`) and the push outbox of the self-hosted one (Rust, `crates/control-plane`).

Each protocol is a module in a file of its own.

| file | what it models |
|---|---|
| `RegistryUpload.dfy` | the chunked blob upload of the image registry (the push of a blob in chunks of the OCI Distribution Specification): lease, parts, assembly, publication, expiry alarm |
| `Deployments.dfy` | deployment phases, current and promotion pointers, failure cleanup, predecessor cleanup, health moves, service removal |
| `RouteSafety.dfy` | what the public tunnel may serve while deployments come and go |
| `StopJob.dfy` | the resumable stop of a scheduler job |
| `Scheduler.dfy` | the reconciliation scheduler with eight slots |
| `PushOutbox.dfy` | push deliveries, pending requests and the controller that deploys them, statement by statement |
| `Backups.dfy` | backups, restores, retention, and their locks on databases and bindings |
| `CommandRelay.dfy` | commands relayed to fleet agents, with deadlines and reuse by key |
| `Migration.dfy` | the import of a workspace across two stores |
| `AppleJobs.dfy` | native jobs on Macs |
| `FleetNetwork.dfy` | slots, addresses, keys, the fleet server and the generated peer lists |
| `Redaction.dfy` | hiding secret values in messages |
| `Der.dfy` | DER lengths, the PKCS#8 envelope, and the texts keys are configured in |
| `Common.dfy` | shared value types and two facts about sets |

A protocol is a `State`, an `Event` for everything that can happen between two awaits, and `Apply`;
`Run` folds `Apply` over any sequence of events, so a lemma about `Run` is about every interleaving,
crashes included. An invariant is proved for every step and carried over every run. Stores, objects
and records that the program changes in place are classes whose methods are proved to make the same
step as the state machine, and the program's loops are loops here. Where a promise does not hold in
every run, a concrete run shows how it fails and a lemma says exactly when it holds.

Promises that turned out not to hold as documented, each with its run and its condition:

- A failed candidate can be stopped while a live domain may still be routed to it, when the reply to
  an accepted tunnel configuration is lost, or when a crash separates the two saves that end the
  observing phase (runs `RouteSafety.LostReplyBreaksRoutes`, `RouteSafety.TornSaveBreaksRoutes`;
  conditions `RouteSafety.CandidateUnroutedIff`, `RouteSafety.RunIsSafeIff`).
- An older push can be deployed after a newer one, because `created_at` is the time its transaction
  began and not when it committed (run `PushOutbox.LateRequestDeploysLast`, condition
  `PushOutbox.QueueSafety`).
- The controller can create a second deployment of a commit that somebody deployed by hand after it
  had looked (run `PushOutbox.SecondDeploymentHappens`, condition `PushOutbox.SecondDeploymentIff`).
- A mutation whose outcome is unknown can be handed to an agent again once its command has been pruned
  (run `CommandRelay.PrunedMutationRunsAgain`, condition `CommandRelay.SecondMutationComesAnHourLater`).
- A staged or even active import of a bundle without documents can be replaced by another bundle
  (run `Migration.EmptyBundleIsReplaced`, condition `Migration.ReplacedIff`), and a request that was
  under way at staging can still write into the paused workspace (run `Migration.CarriedWriteHappens`,
  condition `Migration.CarriedRequestsIntrude`).
- A recorded result of a legacy Apple job can be lost (run `AppleJobs.RetiredResultIsLost`, condition
  `AppleJobs.ResultLostIff`), and a recorded artifact deleted (run `AppleJobs.RecordedArtifactIsDeleted`,
  condition `AppleJobs.ArtifactDeletedIff`), by a handler that began before the job finished.
- A fleet can end up without a server when a machine joins while the server is being removed
  (run `FleetNetwork.ServerCanBeLost`, condition `FleetNetwork.ServerLostIff`), and has none until a new
  machine joins (`FleetNetwork.ServerReturnsIff`).
- A listing of another shape lets a stop finish without waiting for anything (run
  `StopJob.UnreadableListingCapturesNothing`, conditions `StopJob.CapturesIff`, `StopJob.DoneUnseenIff`).
- A secret that touches the marker it is replaced by can be left in a message (messages
  `Redaction.TouchingComesBack`, condition `Redaction.LeftOverIff`).
- A DER length of 2^32 or more, any of them, is not decoded to itself (`Der.LengthRoundTripIff`, an
  equivalence).

## Model

| member | source | states |
|---|---|---|
| RegistryUpload.UploadSafety | apps/control-cloud/src/registry.ts:445-726 | over every run: the log has at most 512 chunks and MAX_BLOB bytes, `size` is the sum of the chunk sizes, an open upload has every committed part with its committed bytes, `completed` names a stored blob that is the digest of the concatenation, and every stored blob has its digest |
| RegistryUpload.AppendsOnlyByOwner | apps/control-cloud/src/registry.ts:424-444 | a chunk is appended only by the request holding the lease, at exactly the offset it was admitted with, and with the bytes of its stored part |
| RegistryUpload.LeaseStaysWithOwner | apps/control-cloud/src/registry.ts:553-568 | a request loses the lease only by its own act, by the takeover of an expired lease, or by the alarm |
| RegistryUpload.LeaseShutsOut | apps/control-cloud/src/registry.ts:365-368 | an admitted request shuts out every other one for 120000 milliseconds, and no longer |
| RegistryUpload.LogOnlyGrows | apps/control-cloud/src/registry.ts:611-614 | over every run committed bytes are never removed or changed, a closed upload's log is frozen, a completed upload keeps its digest until the alarm removes it for good, and no published blob is taken back |
| RegistryUpload.RepeatedChunkIsRefused | apps/control-cloud/src/registry.ts:559-560 | a chunk sent again with the offset it was first accepted at is refused from then on |
| RegistryUpload.MismatchCanBeRetried | apps/control-cloud/src/registry.ts:658-662 | a wrong digest ends the request, frees the lease, and leaves the upload open with the same log and parts that still assemble to it |
| RegistryUpload.FinalizationPublishes | apps/control-cloud/src/registry.ts:626-677 | undisturbed, a request with the right digest publishes exactly the committed bytes and completes the upload |
| RegistryUpload.PartsAssemble | apps/control-cloud/src/registry.ts:633-650 | while every part is there, reading the chunks in order yields the concatenation of the committed bodies |
| RegistryUpload.SizesAddUp | apps/control-cloud/src/registry.ts:611-614 | the total of the chunk sizes is the length of the committed bytes |
| RegistryUpload.CommitInv | apps/control-cloud/src/registry.ts:611-615 | the commit transaction keeps the whole invariant, whether or not the request still owns the lease |
| RegistryUpload.DropPartInv | apps/control-cloud/src/registry.ts:683-684 | the cleanup of a request never deletes a part that was committed |
| RegistryUpload.RunInv | apps/control-cloud/src/registry.ts:424-727 | every interleaving of requests, crashes and the alarm keeps the invariant |
| RegistryUpload.Assemble | apps/control-cloud/src/registry.ts:633-650 | the reading loop returns the assembly of the chunks, and nothing if one is missing or has another size |
| RegistryUpload.RemovePrefix | apps/control-cloud/src/registry.ts:445-461 | page by page, every object of the upload goes and no published blob does |
| RegistryUpload.UploadObject.Begin | apps/control-cloud/src/registry.ts:553-568 | admission in place: the lease is taken, or the document is unchanged and the status is the one of the first failing check |
| RegistryUpload.UploadObject.Update | apps/control-cloud/src/registry.ts:424-444 | the owner's transaction in place: refused and unchanged for anyone but the owner of an open upload |
| RegistryUpload.UploadObject.Release | apps/control-cloud/src/registry.ts:686-694 | the final transaction frees the lease only if it is still the request's own |
| RegistryUpload.UploadObject.ExpireIfDue | apps/control-cloud/src/registry.ts:708-722 | the alarm cancels the upload exactly when it and any lease have expired |
| Deployments.PointersFollowHistory | apps/control-cloud/src/runtime/deploy.ts:43-67 | over every run: at most one active deployment, queued on top of the current one; the current pointer is the last promotion; and the walk back from any promoted release is the promotion history before it, newest first |
| Deployments.CurrentMovesByPromotion | apps/control-cloud/src/runtime/deploy.ts:300-328 | no other step than a promotion after an acknowledged refresh moves the current pointer |
| Deployments.OnlyTheCurrentJobIsLeft | apps/control-cloud/src/runtime/deploy.ts:329-405 | when all deployments are done, every submitted application job but the current one has been stopped |
| Deployments.CurrentIsNeverStopped | apps/control-cloud/src/runtime/deploy.ts:342-355 | unless the service is dismantled, neither the current deployment nor the one under promotion is ever stopped, not even after an accident |
| Deployments.WalkIsHistory | apps/control-cloud/src/runtime/deploy.ts:332-341 | from any point of the history, the chain of predecessors is the history before it, reversed |
| Deployments.CleanupWalk | apps/control-cloud/src/runtime/deploy.ts:342-351 | the cleanup of a release finds exactly the releases promoted before it and passes none of them over |
| Deployments.CommittedInv | apps/control-cloud/src/runtime/deploy.ts:303-327 | the promotion transaction keeps the invariant |
| Deployments.RestorationInv | apps/control-cloud/src/runtime/deploy.ts:374-391 | giving up a promotion keeps the invariant |
| Deployments.MoveInv | apps/control-cloud/src/runtime/deploy.ts:528-600 | a move of the current release to another address keeps the invariant, interrupted or not |
| Deployments.RemovalInv | apps/control-cloud/src/runtime.ts:155-188 | requesting, undoing and carrying out the removal of a service keeps the invariant |
| Deployments.RunInv | apps/control-cloud/src/runtime/deploy.ts:406-480 | every run of the phase machine, with crashes between any two awaits, keeps the invariant |
| Deployments.ServiceRuntime.QueueOn | apps/control-cloud/src/runtime/deploy.ts:32-70 | a deployment is queued exactly when the service is not being deleted and has no active one |
| Deployments.ServiceRuntime.CommitPromotionOf | apps/control-cloud/src/runtime/deploy.ts:303-327 | the pointers change together, and only for the owner of the promotion; anyone else fails |
| Deployments.ServiceRuntime.Configure | apps/control-cloud/src/integrations.ts:120-150 | the tunnel record after a configuration was sent, refused or found unnecessary |
| Deployments.ServiceRuntime.Walk | apps/control-cloud/src/runtime/deploy.ts:332-341 | the loop with its set of seen ids collects exactly the chain of predecessors |
| Deployments.ServiceRuntime.CleanUpAfter | apps/control-cloud/src/runtime/deploy.ts:329-362 | one cleanup pass either finishes, every predecessor passed over or stopped and marked, or has done so up to the first one whose stop it has begun or still waits for |
| Deployments.ServiceRuntime.Visit | apps/control-cloud/src/runtime/deploy.ts:342-355 | one predecessor is passed over, has its stop begun or waited for, or is marked as rolled back once it is stopped |
| RouteSafety.RoutesStaySafe | apps/control-cloud/src/runtime/deploy.ts:279-405 | every run in which a candidate is stopped only with the newest accepted configuration recorded, or, where the refresh was skipped, with its address saved or no domain live, never has a live route that may be served to a job being stopped; replies and saves may be lost anywhere else |
| RouteSafety.RunIsSafeIff | apps/control-cloud/src/runtime/deploy.ts:279-405 | a run of a service that is not dismantled keeps the promise at every point exactly when it never begins to stop a candidate to which an accepted but unrecorded configuration routes a live domain, after a refresh, or whose address is unsaved and which is routed, without one |
| RouteSafety.StepBreaksIff | apps/control-cloud/src/runtime/deploy.ts:381-393 | from a safe state of any run, one step breaks the promise exactly when it is such a stop |
| RouteSafety.CandidateUnroutedIff | apps/control-cloud/src/runtime/deploy.ts:374-391 | over all runs, with any accidents: a restoration that returned leaves no live route to the candidate exactly when no configuration accepted after the recorded one routes a live domain to it, or, where the refresh was skipped, when its address was saved or it is not routed |
| RouteSafety.RestoredIff | apps/control-cloud/src/integrations.ts:132-145 | the same for any state that satisfies the invariant of all runs |
| RouteSafety.PromotionIsRouted | apps/control-cloud/src/runtime/deploy.ts:300-303 | over all runs, with any accidents: when a promotion may commit, every live route leads to the promoted deployment |
| RouteSafety.PredecessorsAreUnrouted | apps/control-cloud/src/runtime/deploy.ts:342-352 | over all runs, with any accidents: no live route leads to a predecessor that cleanup stops |
| RouteSafety.RunRoutes | apps/control-cloud/src/runtime/deploy.ts:279-405 | every run, lost replies and torn saves included, keeps the route invariant |
| RouteSafety.PromotedAloneIsServed | apps/control-cloud/src/runtime/deploy.ts:300-303 | in any state that satisfies the invariant of all runs, when the current pointer may move, every live route already leads to the deployment under promotion, whatever replies were lost before |
| RouteSafety.ConfigRoutes | apps/control-cloud/src/integrations.ts:120-150 | configuring the tunnel, from any caller, its reply recorded or lost, keeps the route invariant of all runs |
| RouteSafety.LostReplyBreaksRoutes | apps/control-cloud/src/integrations.ts:133-145 | a run in which one lost reply lets a candidate's stop begin while a live domain may be routed to it |
| RouteSafety.TornSaveBreaksRoutes | apps/control-cloud/src/runtime/deploy.ts:292-298 | a run in which a crash between two saves does the same, every reply recorded |
| StopJob.StopSafety | apps/control-cloud/src/runtime/common.ts:90-139 | over any number of interrupted calls: done only after the deletion was acknowledged or the job was missing, and every allocation captured before the first deletion request was seen after the last one neither running nor pending, or missing |
| StopJob.ReturnsWhenDone | apps/control-cloud/src/runtime/common.ts:137-138 | a call returns without an error exactly when the stop it leaves is done |
| StopJob.CaptureIsKept | apps/control-cloud/src/runtime/common.ts:94-104 | the captured allocations never change afterwards |
| StopJob.DoneStaysDone | apps/control-cloud/src/runtime/common.ts:105 | a finished stop stays finished and asks the scheduler nothing more |
| StopJob.CallReturnsIff | apps/control-cloud/src/runtime/common.ts:90-139 | from whatever was stored, a call returns exactly when each reply it still needs arrives and is favourable, no stored phase being repeated |
| StopJob.UnreadableListingCapturesNothing | apps/control-cloud/src/runtime/common.ts:63-74 | a script in which a listing of another shape captures nothing and the stop is done once the deletion is acknowledged |
| StopJob.CapturesIff | apps/control-cloud/src/runtime/common.ts:63-104 | over any number of interrupted calls: a set of allocations that is not empty is captured exactly when the first request that was answered, or found the job missing, was answered with the list of it |
| StopJob.DoneUnseenIff | apps/control-cloud/src/runtime/common.ts:90-139 | a call can finish on two replies, with no allocation looked at, exactly when the first one lists none |
| StopJob.StopDocument.Run | apps/control-cloud/src/runtime/common.ts:90-139 | the call in place, for every list of replies it may get before the process dies |
| StopJob.StopDocument.ObserveAll | apps/control-cloud/src/runtime/common.ts:120-138 | the loop over the captured allocations stops at the first that is not quiet |
| Scheduler.BoundedWaiting | apps/control-cloud/src/runtime.ts:446-464 | with n unfinished deployments, each has been reconciled or is finished after n / 8, rounded up, more completed passes, whatever arrives, leaves or crashes |
| Scheduler.WaitsForItsRank | apps/control-cloud/src/runtime.ts:451-457 | a deployment behind r others waits at most r / 8 + 1 completed passes |
| Scheduler.RunInv | apps/control-cloud/src/runtime.ts:446-464 | every interleaving of arrivals, passes and crashes keeps what the bound asks for, and the clock never goes back |
| Scheduler.ChosenIffRank | apps/control-cloud/src/runtime.ts:451-456 | a pass takes a deployment exactly when fewer than eight are ahead of it |
| Scheduler.SortedBelowIsSorted | apps/control-cloud/src/runtime.ts:447-455 | the work list is ordered by age, and by insertion where ages are equal |
| Scheduler.VisitsEffect | apps/control-cloud/src/runtime.ts:456-464 | a pass stamps each chosen deployment once and leaves the others alone |
| Scheduler.Reconciler.Pass | apps/control-cloud/src/runtime.ts:446-464 | the loop over the oldest eight, in place |
| PushOutbox.QueueSafety | crates/control-plane/src/integrations.rs:1298-1335 | over every run with crashes between statements: at most one deployment per service and commit is created by the controller, and one is created after a newer one exactly when its request was inserted after the newer one had been deployed |
| PushOutbox.OutOfOrderIffLate | crates/control-plane/src/integrations.rs:1299 | when a request is about to be queued, a newer one has been queued exactly if this one came late |
| PushOutbox.NewestInOrder | crates/control-plane/src/integrations.rs:1299 | the newest pending request of a service is late, or nothing newer was deployed |
| PushOutbox.SecondDeploymentIff | crates/control-plane/src/integrations.rs:1312-1323 | the controller creates a second deployment of a commit exactly when somebody deployed it by hand after the controller had looked |
| PushOutbox.SecondDeploymentHappens | crates/control-plane/src/integrations.rs:1312-1323 | a run from the empty store in which that happens |
| PushOutbox.NoPushIsLost | crates/control-plane/src/integrations.rs:446-463 | an accepted push is pending, or deployed, or a newer push of the service is deployed |
| PushOutbox.SettledForGood | crates/control-plane/src/integrations.rs:1324-1331 | a request that was queued or superseded never becomes pending again, and its commit is not deployed again by the controller |
| PushOutbox.RedeliveryIsIgnored | crates/control-plane/src/integrations.rs:446-468 | a delivery sent again, at any later time, changes nothing |
| PushOutbox.LateRequestDeploysLast | crates/control-plane/src/integrations.rs:1288-1294 | a run in which the older commit is deployed last |
| PushOutbox.SupersedeInv | crates/control-plane/src/integrations.rs:1324-1328 | giving up older requests keeps the domination of pending requests |
| PushOutbox.MarkedInv | crates/control-plane/src/integrations.rs:1331-1332 | marking the row queued or pending keeps it |
| PushOutbox.RunInv | crates/control-plane/src/integrations.rs:429-468 | every interleaving of deliveries, polls, manual deployments and controller statements keeps the invariant |
| PushOutbox.RowIsARun | crates/control-plane/src/integrations.rs:1300-1334 | the row processed in place is the run of its statements with nothing in between |
| PushOutbox.Outbox.Receive | crates/control-plane/src/integrations.rs:429-468 | a webhook's transaction in place: delivery and requests together, or a duplicate |
| PushOutbox.Outbox.ProcessRow | crates/control-plane/src/integrations.rs:1300-1334 | one row in place, for each outcome of queueing |
| PushOutbox.Outbox.ProcessPushes | crates/control-plane/src/integrations.rs:1298-1336 | the loop over the rows of one pass |
| Backups.RestoresReadTheirSource | apps/control-cloud/src/runtime/backups.ts:196-234 | in every run an active restore's source is a successful copy whose object is there and is the one the restore expects |
| Backups.CopiesKeepTheirObject | apps/control-cloud/src/runtime/backups.ts:257-278 | no step removes or replaces the object of a successful copy |
| Backups.OneOperationPerDatabase | apps/control-cloud/src/runtime/backups.ts:21-25 | at most one unfinished operation reads or fills a database |
| Backups.BindingsWaitForRestore | apps/control-cloud/src/runtime/database.ts:19-36 | no binding refers to a database whose restore has not succeeded, or that does not exist |
| Backups.RemovalIsLocked | apps/control-cloud/src/runtime/database.ts:143-178 | while a database is being removed nothing works on it and no copy of it can be restored |
| Backups.RetentionIff | apps/control-cloud/src/runtime/backups.ts:411-431 | retention expires a copy exactly when at least `keep` others rank above it and no active restore reads it |
| Backups.NewestSurvive | apps/control-cloud/src/runtime/backups.ts:414-422 | the newest `keep` copies survive retention |
| Backups.ExpiryHasACause | apps/control-cloud/src/runtime/backups.ts:188-200 | a copy stops being restorable only by its owner's deletion or by retention past `keep`, and never while in use |
| Backups.StepEvolves | apps/control-cloud/src/runtime/backups.ts:257-410 | no step wakes a finished operation, revives a dead one, or ends a success but by expiry |
| Backups.EndsStay | apps/control-cloud/src/runtime/backups.ts:257-443 | over every run: finished stays finished, dead stays dead, and a finished restore keeps its result |
| Backups.RankIsPosition | apps/control-cloud/src/runtime/backups.ts:414-421 | the position in the sorted list is the number of copies that rank above |
| Backups.RunInv | apps/control-cloud/src/runtime/backups.ts:64-443 | every interleaving of users, uploads, the alarm's stale copies and crashes keeps the invariant |
| Backups.BackupStore.Queue | apps/control-cloud/src/runtime/backups.ts:39-63 | a backup is queued exactly when the database is ready, restored if it had to be, and free |
| Backups.BackupStore.RequestRestoreOf | apps/control-cloud/src/runtime/backups.ts:208-233 | a restore is accepted exactly for a successful copy of a free database |
| Backups.BackupStore.Delete | apps/control-cloud/src/runtime/backups.ts:188-206 | a copy is deleted exactly when it is finished and no active restore reads it |
| Backups.BackupStore.Retain | apps/control-cloud/src/runtime/backups.ts:411-431 | the retention of one database in place |
| Backups.BackupStore.ExpireAll | apps/control-cloud/src/runtime/backups.ts:422-430 | the loop over the surplus copies |
| CommandRelay.DeliveryBounds | apps/control-cloud/src/fleet.ts:429-448 | over every run a mutation is handed out at most once and a read at most twice |
| CommandRelay.OneUnsettledMutation | apps/control-cloud/src/workspace.ts:376-395 | per key at most one stored mutation is claimable or claimed without a result, even after its expiry |
| CommandRelay.SecondMutationComesAnHourLater | apps/control-cloud/src/workspace.ts:468-478 | counting pruned commands, a second mutation of a key whose first has no result comes more than an hour later, after the first was pruned |
| CommandRelay.PrunedMutationRunsAgain | apps/control-cloud/src/workspace.ts:468-478 | one millisecond past the hour every mutation can be handed out again without a result of the first |
| CommandRelay.RequestCreatesIff | apps/control-cloud/src/workspace.ts:376-410 | a request creates a command exactly when none of its key can be reused, and never more than one can |
| CommandRelay.RepeatedRequestIff | apps/control-cloud/src/workspace.ts:376-387 | a repeated request is answered by the earlier command exactly for 5 seconds if it reads and 60 if it writes, and never past the two minutes |
| CommandRelay.UnknownOutcomeBlocks | apps/control-cloud/src/workspace.ts:388-395 | a mutation whose outcome is unknown blocks its key until its result arrives or it is pruned |
| CommandRelay.OldestFirst | apps/control-cloud/src/fleet.ts:434-446 | an agent is handed the oldest command it may claim |
| CommandRelay.RunInv | apps/control-cloud/src/fleet.ts:429-482 | every interleaving of requests, claims, results and pruning keeps the invariant |
| CommandRelay.CommandTable.Send | apps/control-cloud/src/workspace.ts:354-411 | a request in place: offline, unknown outcome, or a command of its key that can be waited for |
| CommandRelay.CommandTable.ClaimNext | apps/control-cloud/src/fleet.ts:429-448 | the claim transaction in place |
| CommandRelay.CommandTable.Answer | apps/control-cloud/src/fleet.ts:459-482 | a result is accepted exactly once, from the machine that was handed the command |
| Migration.ActiveIsInDirectory | apps/control-cloud/src/migration.ts:493-551 | over every run with any number of operators and bundles, an active workspace's bundle had its directory batch committed |
| Migration.PausedIsFrozen | apps/control-cloud/src/migration.ts:378-393 | while paused nothing else runs and the store holds exactly the bundle's documents, if no other request was under way at staging |
| Migration.CarriedRequestsIntrude | apps/control-cloud/src/workspace.ts:182-185 | exactly the requests under way at staging can still add, change or delete a document of the paused store; besides them only the staging of another bundle into an empty store changes it |
| Migration.CarriedWriteHappens | apps/control-cloud/src/workspace.ts:182-185 | for every bundle and every change of a document, a run in which such a request makes that change to the staged store |
| Migration.ReplacedIff | apps/control-cloud/src/migration.ts:348-393 | a marker gives way to another bundle exactly when a staging handler saw no marker before its awaits and finds no documents after them |
| Migration.PausedBundleStays | apps/control-cloud/src/migration.ts:373-383 | a staged bundle with a document is never replaced while paused, if no other request was under way at staging |
| Migration.EmptyBundleIsReplaced | apps/control-cloud/src/migration.ts:348-393 | a run in which an active workspace is paused again for another bundle |
| Migration.BatchTwice | apps/control-cloud/src/migration.ts:499-541 | committing the batch twice is committing it once |
| Migration.StillImportable | apps/control-cloud/src/migration.ts:426-492 | an import allowed before its batch is allowed after it |
| Migration.RetriesConverge | apps/control-cloud/src/migration.ts:404-561 | after any interrupted retries of one bundle, once active, both stores are in one and the same state |
| Migration.RetryFinishes | apps/control-cloud/src/migration.ts:404-561 | after any interrupted retries, one more call that is not interrupted reaches that state |
| Migration.RowsFillDocs | apps/control-cloud/src/migration.ts:384-385 | the staged store holds the keys of the bundle, and is empty exactly for an empty bundle |
| Migration.WorkspaceStore.StageBundle | apps/control-cloud/src/migration.ts:373-394 | the staging transaction in place, with the marker read before the awaits |
| Migration.WorkspaceStore.ActivateBundle | apps/control-cloud/src/migration.ts:355-366 | activation in place, exactly for the staged bundle |
| AppleJobs.JobSafety | apps/control-cloud/src/apple-nomad.ts:74-137 | over every run: success takes a complete allocation and a recorded success, a user-cancelled job is cancelling until its stop returned and cancelled from then on, and no job accepts two results |
| AppleJobs.FinishedStays | apps/control-cloud/src/apple-jobs.ts:105-177 | a finished job keeps its status, result, allocation and artifact record, whatever agents, users and the reconciler still do |
| AppleJobs.CancellingEndsIff | apps/control-cloud/src/apple-nomad.ts:80-97 | cancelling ends exactly when the stop returns or a legacy job is retired |
| AppleJobs.ResultLostIff | apps/control-cloud/src/apple-nomad.ts:79-87 | a recorded result is lost exactly when a legacy job is retired by a copy made before it |
| AppleJobs.RetiredResultIsLost | apps/control-cloud/src/apple-nomad.ts:79-87 | a run in which that happens |
| AppleJobs.ArtifactDeletedIff | apps/control-cloud/src/apple-jobs.ts:140-147 | a recorded artifact is deleted exactly when an upload of the job ends after the job did |
| AppleJobs.RecordedArtifactIsDeleted | apps/control-cloud/src/apple-jobs.ts:140-147 | a run in which the recorded artifact of a failed job is deleted while the job still points to it |
| AppleJobs.ArtifactStays | apps/control-cloud/src/apple-jobs.ts:130-147 | without such an upload a finished job keeps its artifact |
| AppleJobs.RunInv | apps/control-cloud/src/apple-nomad.ts:74-158 | every interleaving of agent, user and reconciler keeps the invariant |
| AppleJobs.JobStore.ObserveJob | apps/control-cloud/src/apple-nomad.ts:102-137 | what the reconciler makes of a job it re-read after the await |
| AppleJobs.JobStore.FinishResultOf | apps/control-cloud/src/apple-jobs.ts:149-177 | a result is accepted exactly for a running or cancelling job without one |
| AppleJobs.JobStore.Cancel | apps/control-cloud/src/apple-jobs.ts:282-287 | a user's cancellation of an active job |
| FleetNetwork.NetworkSafety | apps/control-cloud/src/fleet.ts:132-153 | over every history of joins, refreshes and interleaved removals: slots in 2..65534, slots, keys and machines distinct, at most one server |
| FleetNetwork.SlotsAreStable | apps/control-cloud/src/fleet.ts:133-136 | a machine keeps its slot and its part until it is removed |
| FleetNetwork.ServerLostIff | apps/control-cloud/src/fleet.ts:530-549 | a fleet loses its server exactly when the server's removal finishes after somebody joined meanwhile |
| FleetNetwork.ServerCanBeLost | apps/control-cloud/src/fleet.ts:177-196 | a history in which that happens |
| FleetNetwork.ServerReturnsIff | apps/control-cloud/src/fleet.ts:134-142 | a fleet without a server gets one exactly when a machine joins that is no node yet |
| FleetNetwork.ServerlessUntilJoin | apps/control-cloud/src/fleet.ts:132-153 | over every history without such a join, refreshes and removals included, it has none |
| FleetNetwork.ExactlyOneServer | apps/control-cloud/src/fleet.ts:142 | otherwise a fleet that is not empty has exactly one server |
| FleetNetwork.AddressesInjective | apps/control-cloud/src/fleet.ts:141 | different slots have different addresses, none of them the first or last of the network |
| FleetNetwork.AnyTwoNodesConnect | apps/control-cloud/src/fleet.ts:384-396 | with a server, the generated peer lists send and accept a packet between any two nodes, directly or through the server |
| FleetNetwork.HubRoutesDisjoint | apps/control-cloud/src/fleet.ts:391-396 | every address leads to at most one peer of the server |
| FleetNetwork.SpokesKnowOnlyTheHub | apps/control-cloud/src/fleet.ts:389-396 | every other machine routes only to the server |
| FleetNetwork.FleetStore.JoinMachine | apps/control-cloud/src/fleet.ts:132-153 | joining and refreshing in place |
| FleetNetwork.FleetStore.Survey | apps/control-cloud/src/fleet.ts:134-142 | the largest slot and whether there is a server |
| Redaction.RedactionHidesValues | apps/control-cloud/src/runtime/jobs.ts:407-414 | no value that does not touch the marker is left in the output, whatever the other values are, and none gets in that was not in the message; a value touches the marker when one of the two contains the other, or the end of one is the start of the other |
| Redaction.LeftOverIff | apps/control-cloud/src/runtime/jobs.ts:407-414 | there are a message and values among which a given one is left in the output exactly when it touches the marker |
| Redaction.TouchingComesBack | apps/control-cloud/src/runtime/jobs.ts:412 | for every value that touches the marker, the message and the values with which it comes back |
| Redaction.ReplaceHides | apps/control-cloud/src/runtime/jobs.ts:412 | one replacement removes its value and brings no other value in that does not touch the marker |
| Redaction.SplitLosesNothing | apps/control-cloud/src/runtime/jobs.ts:412 | only the value is cut out: joining the pieces with it gives the text back |
| Redaction.SortedKeeps | apps/control-cloud/src/runtime/jobs.ts:409-411 | the values used are exactly the non-empty ones, longest first |
| Redaction.WholeSecretIsHidden | apps/control-cloud/src/runtime/jobs.ts:409-412 | a message that is one of the values becomes the bare marker, however the values overlap |
| Redaction.PartOfMarkerStays | apps/control-cloud/src/runtime/jobs.ts:412 | a value that is part of the marker is still readable after it was hidden |
| Redaction.Redact | apps/control-cloud/src/runtime/jobs.ts:407-414 | the loop over the values |
| Der.LengthRoundTripIff | apps/control-cloud/src/github.ts:182-190 | a length decodes to itself, whatever follows, exactly when it is below 2^32 |
| Der.LengthIsShortest | apps/control-cloud/src/github.ts:182-190 | it is the only definite form of that length in the fewest bytes |
| Der.LoopValue | apps/control-cloud/src/github.ts:185-188 | the loop keeps the low 32 bits, in at most four bytes, without a leading zero below 2^32 |
| Der.ElementRoundTripIff | apps/control-cloud/src/github.ts:191-193 | an element is parsed back in full and no further exactly when its content is shorter than 2^32 |
| Der.WrapRoundTripIff | apps/control-cloud/src/github.ts:194-225 | the wrapped key parses as version 0, rsaEncryption and the original bytes exactly when the whole content fits |
| Der.HeaderIsElements | apps/control-cloud/src/github.ts:203-222 | the constant bytes are the version and the algorithm identifier they stand for |
| Der.EitherFormImports | apps/control-cloud/src/github.ts:194-225 | from a PKCS#1 text and from a PKCS#8 text of one key, however their lines are broken, the same PrivateKeyInfo of that key is imported, provided that base64 decoding gives back the bytes each text encodes |
| Der.BodyOfPem | apps/control-cloud/src/github.ts:195-197 | removing the boundary lines leaves exactly what stands between and after them |
| Der.RsaIsRecognized | apps/control-cloud/src/github.ts:198-199 | a PKCS#1 text is taken for RSA and never for PKCS#8, whatever its lines |
| Der.LengthBytes | apps/control-cloud/src/github.ts:182-190 | the loop that collects the length bytes |

## Left out

Assumptions under which the models are faithful:

- Each `await` is a point where others may act; what a handler does between two awaits, and every
  storage transaction, is one step. The clock never goes backwards.
- Handlers that read, await and write back a whole document are one step each where nothing else here
  depends on the difference: the service settings handler (apps/control-cloud/src/runtime.ts:312-319),
  the retry of a database (apps/control-cloud/src/runtime/database.ts:110-142), the command result
  (apps/control-cloud/src/fleet.ts:459-482), and looking up and creating a command
  (apps/control-cloud/src/workspace.ts:376-410).
- An object or scheduler request that was interrupted takes effect no later than the step that models it,
  or never; in the registry a crashed request's one pending store call may land at any later time.
- SHA-256 is a function of the bytes in `RegistryUpload` and injective where a digest stands for a bundle
  or a command; sealing and opening secrets are the identity.

What the models do not capture:

- `RegistryUpload`: parsing of headers and ranges, status queries, the body stream between two lease
  renewals (a part is stored whole or not at all), and the authorization in front of the upload.
- `Deployments`: the job specifications, build jobs (their stops are steps of the same kind), the
  deadlines that make a deployment fail (failing may happen at any time), the deletion of the documents of a removed service, and the choice of an automatic
  rollback (it is a queued deployment like any other).
- `RouteSafety`: imported legacy tunnels; the addresses of one application job are not reused by another;
  a domain whose removal has begun is not counted as live.
- `StopJob`: the order of the captured allocations.
- `Scheduler`: databases and service health, which every pass visits in full.
- `PushOutbox`: more than one controller process; who may deploy; the choice of the twenty rows of a pass
  beyond their order; which repositories a push concerns is given as a set of services.
- `Backups`: transfer credentials and deadlines, the schedule of automatic backups (a backup may be queued
  at any time its guard allows), the phases of a database before it is ready, projects of services.
- `CommandRelay`: the polling of a result and what it is turned into.
- `Migration`: the validation of a bundle's contents beyond distinct keys; the collections that staging
  does not require to be empty; timestamps.
- `AppleJobs`: admission of a job, the agent's credentials, logs.
- `FleetNetwork`: of the guards on removing a machine, those about peers alone; runtime settings of a
  retired server; packets beyond the allowed addresses of the peer lists.
- `Der`: base64 itself (decoding is a parameter), multi-byte tags and the meaning of the key's own bytes.
- The web interface, sign-in, cookies, field validators, job builders, log parsing, samples, and the agent:
  they would only add easy members, or are calls into other systems.
- Liveness beyond the scheduler's bound and the retries of a migration and of a stop: an upload with 512
  chunks, for example, admits no further operation.
