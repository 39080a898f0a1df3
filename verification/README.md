# losant-device: a verified model of the operator

The operator keeps two custom resources in step with systems it does not control. A `RancherSession`
imports the edge cluster into Rancher for a limited time; a `LosantSync` provisions devices in Losant and
reports cluster health to a Gateway Edge Agent (GEA). Both reconcilers are loops of fallible remote calls
around a versioned object. This project models them together with the trigger server, the credential
bootstrap, the workflow release loop and the health pipeline, and proves what holds over every run.

## How it is built

**Protocols.** `RancherProtocol`, `SyncProtocol` and `CredentialProtocol` describe the world as a state
machine: the API server (`ApiStore`), the remote system, the clock and a worker. A step is one atomic
call, a move of the surroundings, the start of a reconcile from any version ever stored (a stale read), or
its end at any moment (a crash). Every call may be refused, confirmed, or take effect without its reply
arriving. A worker's call is enabled only when the answers gathered in the same reconcile justify it.

**Theorems.** `RancherInvariant`, `SyncInvariant` and `CredentialTheorems` prove an inductive invariant
over all enabled steps; `RancherTheorems`, `RancherImports`, `RancherCleanup`, `RancherRecords`, `SyncEvidence`,
`SyncTheorems`, `SyncPipeline` and `CredentialTheorems` draw the conclusions for whole runs. A run is a sequence of
states and steps, so each theorem quantifies over every interleaving. What a reconcile acts on is shown to be
what its own calls returned, so conclusions about its evidence are conclusions about calls made.

**Code.** `RancherController`, `SyncController`, `CredentialBootstrap` and `TriggerServer` hold the code in
the form of the original: classes whose methods work on an in-memory copy and call out one step at a time,
with arbitrary interference before each call. Each call has the enabledness of its protocol step as a
proof obligation, and `Ok()` says that all that has happened is a run of the protocol. So every theorem
about runs holds of this code. The answer of Get and, in the trigger server, the outcome of each request are
parameters; every other answer is picked arbitrarily in the method that makes the call, and recorded. The
postconditions say in addition how each reconcile ends: what it wrote, which calls it made, and what it asks of
the work queue.

**Health.** `PodCounts`, `HealthScore` and `HealthWatcher` are loops proved against order-independent
specifications built on `Sums`.

## Assumptions

- One worker per resource, and nobody else writes its status; users may edit the spec, delete the resource
  and remove remote records at any time.
- A lookup by name returns exact matches only, and ids handed out by Rancher and Losant are fresh and not empty.
- Nobody else creates Rancher records or Losant devices under the names used here: no second session with the
  same display name, no second cluster in the same Losant application whose device names overlap.
- A Losant release is listed after the deployments before it, sets the desired version and leaves the running one alone.
- A call that reports failure has either already taken effect or never will.
- Deleting something that is already gone counts as success, as in the clients.
- Stored timestamps lose their fraction of a second (section 5.6 of RFC 3339, whole seconds); each clock
  reading is a separate step, and the clock never runs backwards.
- The cluster name of a LosantSync does not change during a run.
- A cron schedule yields a later time on a whole second, or an error.

## Where the code differs from its documentation

- docs/architecture.md says that TTL expiry cleans up automatically. The code starts the cleanup, but if a
  call in it fails, a session that nobody deletes stays in Disconnecting: the phase switch has no case for
  it. The code was followed: `FailedCleanupIsNotResumed` proves it of every run, `CleanedUpExactlyInPlace` says
  exactly when the cleanup is finished, and `TtlCleanupCanStrand` constructs a run in which it never is.
- A TTL is accepted whenever it is positive. `ConnectedWakeUp` says for which TTLs the connecting reconcile asks
  to be woken; 9223372037 s is one for which it asks for no wake-up.
- A credentials Secret that can be read but is malformed gives a client that is not nil although unusable,
  so the branch that removes only the namespace is reached just when the Secret cannot be read.

## Model

| member | source | states |
|---|---|---|
| `Base.StoredSpan` | internal/controller/ranchersession_controller.go:202-207 | the stored distance of two timestamps n seconds apart is n seconds if and only if the nanosecond product fits int64 |
| `RancherTheorems.OneRecordPerName` | internal/controller/ranchersession_controller.go:141-152 | in every run Rancher never holds two records of one display name |
| `RancherTheorems.LeftoverIsAdopted` | internal/rancher/client.go:121-162 | an answered lookup finds a record left behind by a lost reply, so no second one is made |
| `RancherTheorems.StaleReadIsFenced` | internal/controller/ranchersession_controller.go:128-147 | a reconcile that read anything but the current version neither creates nor deletes a record |
| `RancherTheorems.StaleNamespaceDelete` | internal/controller/ranchersession_controller.go:247-270 | a reconcile from a stale read deletes the namespace only in the branch without a client: deletion mark and finalizer in the version read, Secret found unreadable by its own call |
| `RancherTheorems.StaleNamespaceDeleteHappens` | internal/controller/ranchersession_controller.go:247-270 | and there it can: a run in that branch goes on with the deletion whatever version was read |
| `RancherTheorems.SessionEvolves` | internal/controller/ranchersession_controller.go:75-125 | two sightings of one session at any distance: deletion mark, finalizer and applied manifest are never taken back, the connect stage is never re-entered |
| `RancherTheorems.PhaseNeverDecreases` | internal/controller/ranchersession_controller.go:107-123 | the phase of a session not being deleted never goes back and Failed is final |
| `RancherTheorems.ImportsOnlyWhileOpen` | internal/controller/ranchersession_controller.go:86-212 | records are created and manifests applied only for a session in the API server that holds the finalizer, was read undeleted, and has never left the connect stage |
| `RancherTheorems.GoneForGood` | internal/rancher/client.go:196-203 | a record that is gone stays gone |
| `RancherTheorems.EvidenceIsReal` | internal/controller/ranchersession_controller.go:215-317 | the 404, the confirmed deletions, the clock reading and the unreadable Secret a reconcile acts on were answered by its own calls |
| `RancherTheorems.FinalizerGoneMeansCleaned` | internal/controller/ranchersession_controller.go:247-317 | a session with finalizer leaves only after namespace deletion went through and the deletion of its cluster was confirmed in that reconcile, and the cluster is absent from Rancher ever after, unless the credentials were unreadable |
| `RancherTheorems.ConnectionOrigin` | internal/controller/ranchersession_controller.go:196-212 | every Connected session goes back to one effective write that took the same session from Connecting |
| `RancherTheorems.ConnectedSession` | internal/controller/ranchersession_controller.go:157-212 | Connected implies manifest applied, a cluster id, and stored timestamps exactly the TTL apart if and only if the TTL fits int64 nanoseconds |
| `RancherTheorems.PollingDeadline` | internal/controller/ranchersession_controller.go:157-175 | while the agent is awaited the stored deadline is 120 s after the manifest was applied |
| `RancherTheorems.LiveSessionEndsInTime` | internal/controller/ranchersession_controller.go:215-244 | the record of a session nobody deletes is deleted only after an answered probe found it gone in that reconcile, or more than the span its TTL denotes in 64-bit nanoseconds, less one second, after the effective connecting write; for a TTL that fits, the TTL itself |
| `RancherImports.CreatedUnderName` | internal/controller/ranchersession_controller.go:128-147 | a record is created under the display name that the session read asks for, or under the name of the session if it asks for none |
| `RancherImports.LookedUpByName` | internal/controller/ranchersession_controller.go:128-139 | a lookup is answered for that same name: a record found bears it, and if none is found none does |
| `RancherImports.ProbeTells` | internal/controller/ranchersession_controller.go:224-234 | an answered probe finds the session gone exactly if Rancher holds no record of its cluster |
| `RancherImports.ImportIsReal` | internal/controller/ranchersession_controller.go:128-212 | the client, the record, the token, the manifest and the agent that a reconcile relies on were answered by its own calls |
| `RancherImports.ImportRecorded` | internal/controller/ranchersession_controller.go:141-175 | a manifest is recorded as applied only after it was in that reconcile, with the cluster found or created by its own call and a deadline 120 s after its own clock reading |
| `RancherImports.ConnectedMeansReady` | internal/controller/ranchersession_controller.go:187-212 | a session becomes Connected only after its agent was found available in that reconcile, from a clock reading of it |
| `RancherCleanup.FailedCleanupIsNotResumed` | internal/controller/ranchersession_controller.go:107-123 | a live session resting in Disconnecting stays there or becomes Failed, and no further deletion of its record is attempted |
| `RancherCleanup.DisconnectedMeansCleaned` | internal/controller/ranchersession_controller.go:273-299 | a session stored as Disconnected had namespace and recorded cluster deleted with confirmation in the reconcile that stored it, and that cluster is absent from Rancher ever after |
| `RancherCleanup.CleanedUpExactlyInPlace` | internal/controller/ranchersession_controller.go:273-299 | an undeleted session stored as Disconnecting is ever stored as Disconnected if and only if the Disconnected write of the reconcile cleaning it up takes effect |
| `RancherExamples.TtlCleanupCanStrand` | internal/controller/ranchersession_controller.go:215-299 | a run, call for call, in which one refused deletion after the TTL leaves the record behind and the retry does nothing |
| `RancherExamples.OverflowingTtlConnects` | internal/controller/ranchersession_controller.go:202-211 | a run, call for call, in which a session connects with a TTL of 9223372037 s and is stored as expiring before it connected |
| `RancherRecords.NoRecordForgotten` | internal/controller/ranchersession_controller.go:128-175 | every record is named by the stored session or held by the reconcile in progress, or a step is named at which a lost reply, an unstored status, a changed display name or a missing client lost sight of it |
| `RancherTheorems.ConnectsMinusRemoved` | internal/trigger/server.go:122-178 | connects that created a session less sessions that left is 1 while one exists and 0 otherwise |
| `RancherController.Reconciler.StatusUpdate` | internal/controller/ranchersession_controller.go:130-134 | a confirmed write continues from the version it produced, any other halts the reconcile |
| `RancherController.Reconciler.RancherClient` | internal/controller/ranchersession_controller.go:387-400 | the three kinds of client a Secret yields |
| `RancherController.Reconciler.ObtainCluster` | internal/controller/ranchersession_controller.go:135-154 | find, and create only after not found; the failure names the call that failed |
| `RancherController.Reconciler.HandleConnect` | internal/controller/ranchersession_controller.go:128-176 | the first write only sets the phase to Connecting; error exactly if a status write was not confirmed; otherwise the whole status stored at the end and the wake-up follow from the last answer |
| `RancherController.Reconciler.PollAgentReady` | internal/controller/ranchersession_controller.go:179-212 | Failed after the deadline, otherwise Connected from a clock reading after readiness; an unreadable Deployment is an error, one that is absent or without available replicas a retry that writes nothing |
| `RancherController.Reconciler.HandleConnected` | internal/controller/ranchersession_controller.go:215-244 | cleanup exactly on expiry or 404; unless expired Rancher is asked for the recorded cluster right after the clock, an unanswered probe is recorded, and otherwise the session is left alone and gets its wake-up |
| `RancherController.Reconciler.HandleDisconnect` | internal/controller/ranchersession_controller.go:247-270 | how deletion ends with, without and with an unusable client; the retry asked for by cleanup is dropped |
| `RancherController.Reconciler.RunCleanup` | internal/controller/ranchersession_controller.go:273-299 | it opens with a write that only sets Disconnecting; success means record and namespace gone and the status as read but Disconnected; a refused deletion is recorded for a retry |
| `RancherController.Reconciler.RemoveFinalizer` | internal/controller/ranchersession_controller.go:311-317 | given up only with both deletions confirmed, or the namespace alone without a client; success exactly if the session has left and that was confirmed |
| `RancherController.Reconciler.SetFailed` | internal/controller/ranchersession_controller.go:402-410 | writes Failed with its reason and asks for nothing |
| `RancherController.Reconciler.SetApiUnreachable` | internal/controller/ranchersession_controller.go:413-420 | writes the reason, leaves the phase, retries after 30 s |
| `RancherController.Reconciler.Reconcile` | internal/controller/ranchersession_controller.go:75-125 | nothing is done if Get finds nothing (no error) or fails (an error); from any stored version a whole reconcile is part of a run of the protocol and ends as its phase prescribes, the credentials read first, with `first` and `second` clock readings taken during it |
| `RancherController.Reconciler.Operate` | internal/controller/ranchersession_controller.go:75-125 | any number of reconciles with any interference is one run of the protocol |
| `RancherController.ConnectedWakeUp` | internal/controller/ranchersession_controller.go:202-244 | a live session left in Connected gets a wake-up: if just connected, exactly when its TTL in nanoseconds is positive after 64-bit wrap-around; otherwise except exactly when the clock reached its expiry between two readings, which are calls of the reconcile |
| `RancherController.DeadlinesAreStrict` | internal/controller/ranchersession_controller.go:179-222 | an awaited import is given up, and a connected session cleaned up for its age, exactly if the first clock reading is later than the deadline |
| `RancherController.FittingTtlWakes` | internal/controller/ranchersession_controller.go:202-211 | a positive TTL whose nanosecond product fits int64 always gets a wake-up |
| `RancherController.OverflowingTtlSleeps` | internal/controller/ranchersession_controller.go:202-211 | for a TTL of 9223372037 s, which the trigger accepts, the connecting reconcile asks for no wake-up |
| `TriggerServer.EffectiveTtl` | internal/trigger/server.go:122-128 | a session created by the trigger has the requested TTL if that is positive and 3600 s otherwise |
| `TriggerServer.ConnectCreates` | internal/trigger/server.go:128-140 | the session a connect creates is new, with that TTL, no display name, not suspended and with an empty status |
| `TriggerServer.DisconnectDeletes` | internal/trigger/server.go:156-178 | a delete marks a session that holds the finalizer and removes one that does not |
| `TriggerServer.Server.HandleConnect` | internal/trigger/server.go:122-153 | for every outcome of the Create: 202, 409 or 500, and the state that goes with it, under any interleaving |
| `TriggerServer.Server.HandleDisconnect` | internal/trigger/server.go:156-178 | the same for every answer of the cached Get and every outcome of the Delete: 202, 404 or 500 |
| `TriggerServer.Server.HandleRancher` | internal/trigger/server.go:86-119 | requests that are refused change nothing; the others are connects or disconnects |
| `SyncTheorems.StatusCoherent` | internal/controller/losantsync_controller.go:94-257 | in every state Active has its four conditions True and device id and times set; Degraded has LastSyncSucceeded False, which in turn means Degraded or Suspended |
| `SyncTheorems.ResourceEvolves` | internal/controller/losantsync_controller.go:106-204 | Provisioning is entered from New only, GEABootstrapped never goes from True to False, recorded node keys never shrink |
| `SyncTheorems.OneDevicePerName` | internal/losant/client.go:152-188 | Losant never holds two live devices of one device name |
| `SyncTheorems.RecordedIdsAreRight` | internal/controller/losantsync_controller.go:164-204 | recorded ids belong to the cluster or node they are recorded for, so they are pairwise distinct |
| `SyncTheorems.NoDeviceForgotten` | internal/controller/losantsync_controller.go:164-204 | every live device is recorded, or a step lost it, or the reconcile that created it is in progress without a write in effect: all told from the steps of the run |
| `SyncTheorems.LostMeans` | internal/controller/losantsync_controller.go:378-380 | what counts as lost was lost at a step: a create without reply, or the end of a reconcile whose own call created the device and of whose writes none took effect |
| `SyncTheorems.GoneForGood` | internal/losant/client.go:345-355 | a deleted device stays deleted |
| `SyncTheorems.FinalizerGoneMeansDeleted` | internal/controller/losantsync_controller.go:260-300 | when a resource with finalizer leaves, every device it records is absent from Losant from then on |
| `SyncPipeline.ReportsReachTheirDevice` | internal/controller/losantsync_controller.go:190-235 | reports go to the device this very sync ensured for the cluster or node they describe, after its calls gave every snapshot node a device; node devices are created with the cluster device of this sync as gateway |
| `SyncPipeline.OneDevicePerSync` | internal/controller/losantsync_controller.go:190-235 | the device a sync has ensured for the cluster or a node is unique |
| `SyncPipeline.PipelineOrder` | internal/controller/losantsync_controller.go:131-257 | the tasks completed by the calls of a sync are a prefix of the canonical order; each further call attempts the next task until the first failure, after which the next time is asked for once and the status written; a success is stored only with all tasks completed |
| `SyncPipeline.EachTaskOnce` | internal/controller/losantsync_controller.go:131-257 | in the canonical order no step and no node comes up twice |
| `SyncPipeline.EvidenceIsReal` | internal/controller/losantsync_controller.go:122-256 | what a sync takes for completed was completed by its own calls and the other way round; its clock, gate and schedule instants, its next time and its created devices come from its own calls; it counts as saved exactly if a write of it took effect |
| `SyncPipeline.FailureFrame` | internal/controller/losantsync_controller.go:363-382 | a sync whose calls failed writes Degraded: the failing step's condition and LastSyncSucceeded False with its reason, those of the steps its calls completed True with theirs, all others as read; the ids of the devices it ensured; the last sync time as read; the next time as answered after the failure, or as read |
| `SyncPipeline.SuccessFrame` | internal/controller/losantsync_controller.go:164-256 | a status that says Active is written by a sync whose calls met no failure; its conditions and ids are those of the tasks completed, its next time the one it was told |
| `SyncPipeline.WorkflowsWhenAsked` | internal/controller/losantsync_controller.go:206-211 | the workflow deployments are looked after exactly if the spec asks for any |
| `SyncTheorems.SuccessesAreSpaced` | internal/controller/losantsync_controller.go:122-129 | a success stored for a resource read as Active follows a success of the same resource and is spaced from it, in terms of the schedule and clock steps of both |
| `SyncTheorems.ConsecutiveSuccesses` | internal/controller/losantsync_controller.go:237-256 | the stored time is what the first success was told: exactly the interval after it asked, or a later cron tick; the second reads the clock at or after that, more than the interval less one second after the first asked |
| `SyncTheorems.LastSyncWasRead` | internal/controller/losantsync_controller.go:237-253 | the last sync time of a success is a clock reading of that reconcile made after it asked for the next time, hence not later than the write, and is stored in whole seconds |
| `SyncTheorems.LastSyncIsPast` | internal/controller/losantsync_controller.go:244-253 | in every state the stored last sync time is not in the future |
| `SyncTheorems.EarlyReconcileIsQuiet` | internal/controller/losantsync_controller.go:122-129 | before the stored time a reconcile of an Active resource makes no call and writes nothing |
| `SyncController.NoLostWakeUp` | internal/controller/losantsync_controller.go:363-411 | a live unsuspended resource with a positive interval is woken again except exactly when the clock overtook two readings of the reconcile |
| `SyncController.WaitsAsPlanned` | internal/controller/losantsync_controller.go:363-411 | a sync asks to wait until its next time; after a failure for the interval, until the cron tick, or a minute without a valid schedule |
| `SyncController.Reconciler.EnsureDevice` | internal/losant/client.go:152-188 | find, patch if found, create only if not found; the id is the device's or the failure is recorded |
| `SyncController.Reconciler.ProvisionNodes` | internal/controller/losantsync_controller.go:190-204 | all snapshot nodes have devices and are recorded, or the failure keeps those recorded so far |
| `SyncController.Reconciler.Report` | internal/controller/losantsync_controller.go:213-235 | GEA accepted the cluster state and every node was reported, or GEA was unreachable |
| `SyncController.Reconciler.NextSchedule` | internal/controller/losantsync_controller.go:396-411 | the next time is counted from the clock reading, or there is none |
| `SyncController.Reconciler.SetDegraded` | internal/controller/losantsync_controller.go:363-382 | the degraded status and the waiting time: the interval, until the tick, or a minute |
| `SyncController.Reconciler.Finish` | internal/controller/losantsync_controller.go:237-256 | Active with the next time, waiting until it; a schedule error degrades |
| `SyncController.Reconciler.HandleDeletion` | internal/controller/losantsync_controller.go:260-300 | success if and only if every recorded device is deleted and giving up the finalizer took effect and was confirmed, an error at the first failure; the cluster's device is deleted only after those of the nodes |
| `SyncController.Reconciler.FirstReconcile` | internal/controller/losantsync_controller.go:106-120 | Provisioning with the clock as next time, and a wake-up after a second |
| `SyncController.Reconciler.SyncIfDue` | internal/controller/losantsync_controller.go:122-257 | an early reconcile only reads the clock and waits; otherwise a sync ends Active or Degraded |
| `SyncController.Reconciler.Reconcile` | internal/controller/losantsync_controller.go:67-257 | nothing is done if Get finds nothing (no error) or fails (an error); from any stored version a whole reconcile is part of a run of the protocol and ends as the resource prescribes, its wait after a success counted from its very end |
| `SyncController.Reconciler.Operate` | internal/controller/losantsync_controller.go:67-257 | any number of reconciles with any interference is one run of the protocol |
| `DeviceNames.NamesReadBack` | internal/losant/client.go:440-447 | a device name is its prefix, the cluster name and, for a node, a dash and the node name |
| `DeviceNames.NamesAreDistinct` | internal/losant/client.go:440-447 | within one cluster device names and devices correspond one to one |
| `DeviceNames.NamesCollide` | internal/losant/client.go:445-447 | two clusters with nodes of one device name |
| `DeviceNames.CollisionMeansOverlap` | internal/losant/client.go:445-447 | nodes of two clusters share a device name only if one cluster name with its dash starts the other |
| `DeviceNames.OverlapMeansCollision` | internal/losant/client.go:445-447 | and then every node of the longer-named cluster shares its device name with a node the other may have |
| `Workflows.EdgeDevice.EnsureWorkflowDeployments` | internal/controller/losantsync_controller.go:314-358 | releases are exactly the due entries in order up to the first error; Deployed if and only if desired and current versions all match |
| `Workflows.Index` | internal/controller/losantsync_controller.go:328-331 | the last listing of a flow decides |
| `Workflows.DueMeans` | internal/controller/losantsync_controller.go:334-338 | an entry is released if and only if its last-listed desired version differs |
| `Workflows.DueInOrder` | internal/controller/losantsync_controller.go:334-338 | the due entries come in the order of the spec, each position of a due entry once |
| `Workflows.LookupMeans` | internal/controller/losantsync_controller.go:328-335 | the versions of a flow are those of its last listing, empty without one |
| `Workflows.SecondRunIsQuiet` | internal/controller/losantsync_controller.go:334-352 | after a run with all releases accepted another releases nothing, if and only if no flow is asked for in two versions |
| `Workflows.InconsistentSpecNeverSettles` | internal/controller/losantsync_controller.go:334-352 | a spec for which every run releases again |
| `Workflows.RestsOnceConfirmed` | internal/controller/losantsync_controller.go:348-357 | the next run reports Deployed exactly when every flow runs the version asked for |
| `CredentialTheorems.KeysBounded` | internal/provisioner/bootstrap.go:85-145 | under any interleaving and stale reads, access keys equal the stored one plus failed writes, abandoned and held ones, and at most one is stored |
| `CredentialTheorems.CompleteStays` | internal/provisioner/bootstrap.go:91-136 | complete credentials for the device are never written over |
| `CredentialTheorems.SuccessMeansComplete` | internal/provisioner/bootstrap.go:85-145 | a successful bootstrap means that the Secret names the device and has a key and a secret, then and ever after |
| `CredentialTheorems.HeldIsGiven` | internal/provisioner/bootstrap.go:105-116 | a credential held by a bootstrap names the device and has, each in its place, the key and the secret Losant returned to that bootstrap |
| `CredentialTheorems.StoredIsGiven` | internal/provisioner/bootstrap.go:113-136 | a bootstrap write that takes effect leaves exactly that in the Secret |
| `CredentialTheorems.PlaceholderOverwritesNothing` | internal/provisioner/bootstrap.go:42-66 | the placeholder, three empty fields, is written only where there was no Secret |
| `CredentialBootstrap.Bootstrapper.Bootstrap` | internal/provisioner/bootstrap.go:85-145 | at most one key, and only if the credentials seen do not do; after success the Secret holds the key and the secret just made, or what was seen if that was complete |
| `CredentialBootstrap.Bootstrapper.EnsureCredentialPlaceholder` | internal/provisioner/bootstrap.go:42-66 | the Secret is read once and written only if there is none, with no Losant call; success implies that it exists |
| `HealthScore.ComputeNodeHealthScore` | internal/monitor/health_score.go:33-48 | the score is between 55 and 100, so never critical |
| `HealthScore.ComputeClusterHealthScore` | internal/monitor/health_score.go:54-109 | the score in [0,100] does not depend on the order of the nodes |
| `HealthScore.NodePartIsMeanScore` | internal/monitor/health_score.go:57-77 | the node part is the ceiling of the mean of the nodes' own scores |
| `HealthScore.WorseScoresNoHigher` | internal/monitor/health_score.go:54-109 | no flag or count that gets worse raises the score |
| `HealthScore.CountingAddsUp` | scripts/health-score.sh:166-174 | adding up nodes and counting flags come to the same deduction |
| `HealthScore.HealthScoreScript` | scripts/health-score.sh:157-212 | the script's score and label |
| `HealthScore.ScriptAgrees` | scripts/health-score.sh:157-212 | given the counts of a cluster the script computes the controller's score |
| `PodCounts.CollectPodCounts` | internal/monitor/pod_collector.go:34-70 | per-node counts are the tallies of each node's pods, cluster counts the tally of all |
| `PodCounts.IsCrashLooping` | internal/monitor/pod_collector.go:72-79 | some container waits in CrashLoopBackOff |
| `PodCounts.IsPodReady` | internal/monitor/pod_collector.go:81-88 | the first Ready condition decides |
| `PodCounts.TallyCounts` | internal/monitor/pod_collector.go:34-70 | each count of a tally is the number of listed pods of that phase, in CrashLoopBackOff, or running and not ready |
| `PodCounts.ReadyMeans` | internal/monitor/pod_collector.go:81-88 | a pod is ready exactly if its first Ready condition is True |
| `PodCounts.PartitionIsComplete` | internal/monitor/pod_collector.go:34-70 | for every pod list the per-node values of each field sum to the cluster's |
| `PodCounts.ListedNodes` | internal/monitor/pod_collector.go:34-70 | over listed nodes the pods sum to at most the total, and to it exactly if every pod is on a listed node |
| `HealthWatcher.CollectNodeHealth` | internal/monitor/node_collector.go:27-57 | the last condition of each kind decides, and the score matches the flags |
| `HealthWatcher.SaysMeans` | internal/monitor/node_collector.go:30-41 | a flag holds exactly if some condition of its kind is True and none of that kind follows |
| `HealthWatcher.Reconcile` | internal/controller/healthwatcher_controller.go:56-143 | a failed list leaves the store alone; otherwise counts, nodes and recomputable scores of these lists are published |
| `HealthWatcher.UnhealthyAreUnready` | internal/controller/healthwatcher_controller.go:108-119 | the unhealthy nodes published are the unready ones if and only if node names are unique |
| `HealthWatcher.PodsOnNodes` | internal/controller/healthwatcher_controller.go:90-106 | published node pod counts sum to at most the total, and to it exactly if every pod is on a listed node |
| `HealthWatcher.HealthStore.Update` | internal/monitor/store.go:68-73 | both parts are replaced together |
| `HealthWatcher.HealthStore.Snapshot` | internal/monitor/store.go:76-84 | the pair of the latest update, the nodes in a table of their own |

## Left out

- HTTP, TLS and JSON in the Losant, GEA and Rancher clients: only what a call promises is kept.
- Download and decoding of the import manifest: an operation that succeeds or fails.
- Cron parsing and duration parsing: a schedule gives a later whole second, an interval, or an error.
- The controller-runtime queue and informers: stale reads, version conflicts and the wake-up asked for are kept.
- Within a sync the credential bootstrap and the workflow loop are single calls with a result; each is modelled on its own in CredentialProtocol and Workflows.
- SyncController.Reconciler.FirstReconcile: does not include the creation of the credential placeholder after the status write, whose result the code ignores; it is modelled in CredentialBootstrap.
- CredentialTheorems.KeysBounded: counts separately the keys whose reply was lost or whose worker stopped before trying to store them, because no Secret write failed for those.
- HealthScore.HealthScoreScript: takes the counts as given; the kubectl queries that produce them are not modelled.
- HealthWatcher.CollectNodeHealth: leaves out the floating-point request percentages.
- Event, PVC and CoreDNS collectors: their results are inputs.
- Device tags, attributes and recipes, condition messages and transition times, log output.
- LosantSync clusterName changes: recorded ids would be overwritten by those of other devices.
- Liveness: no fairness of the queue is assumed, so only the wake-ups asked for are characterised.
