# Verified model of the PartitionWorkload controller

A PartitionWorkload keeps a number of pods running, of which a given part (the partition) runs the latest pod
template and the rest may run older ones. Its controller works in passes. A pass reads the workload, claims the pods
its selector matches, stores a snapshot of the pod template as a numbered revision, creates and deletes pods, reports
a status, and deletes old revisions beyond a limit. Every API call in between can be refused, pods can die, and the
spec can be edited at any moment.

This project models that pass call by call, over a small cluster (pods, revisions, one workload), and proves what
passes keep, where they lead, and when they do not lead there.

## How the model is built

- `Objects`, `Cluster`: the stored objects, and the cluster as a state machine. A run is a log of events; `Replay` is
  the state after a log. Every accepted write raises the store's version, which supplies pod ids and resource versions.
- `Server`: a `Client` object whose methods are the API calls. Before each call others may act; a call may be refused
  with any server error, and a refused call has no effect. Three constants say how hostile a run is: `calm` (nobody acts
  between calls), `reliable` (a call is refused only for a reason that is in the store) and `exclusive` (nobody else
  writes this workload's revisions). Every call leaves an event, with what was refused and what a re-read gave, and the
  client can only record what the server would answer in that state (`Accepts`); refused calls and failed reads show the
  error they were answered with. `CallsOf` is what the controller itself
  did in a log, without what others did; contracts say exactly which calls a method makes (`Did`), in every run.
- `Snapshot`: templates as JSON documents, the patch that records one, and the merge that lays it over a workload again.
- `Planner`, `Sorting`, `SlowStart`, `Executor`: the planner and its executor as loops over arrays and API calls.
  `Rollout` says what a pass of them does to the log; `Guarantees` and `Availability` are about any such pass.
- `Ownership`: the reference manager that keeps, releases and adopts pods.
- `History`, `Truncation`: the revision store: probing past name collisions, renumbering past conflicts, garbage
  collection from a list that is out of date.
- `Reporting`: the status, and the promotion of the update revision to current revision.
- `Protocol`: the whole pass as a protocol, which says for every event, refused calls included, where in a pass it may
  happen; the invariant of all runs of that protocol.
- `Activation`, `Controller`: the methods of the reconciler, which are proved to produce only runs of the protocol.
- `Resilience`: what a pass keeps while others act, from the moment its pods were listed.
- `Sweeps`, `Convergence`, `Runs`: an undisturbed pass as a relation between states, what repeated ones lead to, and
  the reconciler called again and again.

## Main results

- In every run, with refused calls, spec edits and pod deaths anywhere, each active pod of the workload's own was made
  from the stored revision it names, unless it waited to be adopted when the run began; stored revisions differ in data
  and number; and the current revision that the status names is stored (`Protocol.EveryRunConsistent`, `Runs.Run`).
- The reported current revision moves only to the update revision and only on a full rollout; the fallback of the
  lookup cannot be reached once one was reported (`Protocol.CurrentMovesOnRollout`, `Protocol.FallbackUnreachable`).
- At every call of a pass the pods stay above a floor and below a ceiling, every accepted call brings them one nearer
  to the goal, and a pass without failure reaches it (`Availability`). While others act the same floors and ceiling hold
  at every moment, less the pods that die, in every pass of every run that begins with no pod to adopt
  (`Resilience.PassKeepsEnough`, `Controller.Reconcile`).
- Undisturbed passes leave the pods alone after the first, the workload after the second and the revisions after the
  third (`Convergence.Quiescence`); a pod that takes several releases delays this by as many passes
  (`Convergence.QuiescenceFromAnyStart`). They reach the replicas exactly when the first plan can be carried out;
  otherwise no pass ever creates or deletes a pod (`Convergence.ReplicasReachedIff`, `Convergence.JammedForEver`). Where
  they end the promised partition is met under an exact condition on the start (`Convergence.PartitionReachedIff`).
- What any pass does, whatever fails and whatever others do meanwhile, is accounted for call by call and in order, also
  when it stops early: the writes of claiming, the calls that store the revision, of which one is accepted at most, the
  pass over the pods, the report, the truncation (`Controller.Reconcile`, `Activation.StoresOnce`).
- Truncation is exact although its list is older than the renumbering of the update revision
  (`Truncation.TruncationExact`).

## Where the code does not do what it says

- `api/v1alpha1/partitionworkload_types.go:46-52` promises that exactly the partition of pods has the latest version in
  the end. With a single revision in play (`internal/controller/sync/util.go:81-84`) only the total is driven to the
  replicas. `Availability.PartitionMetIff` is the exact condition for one pass, `Convergence.PartitionReachedIff` that for the
  state passes come to rest in, and `Availability.PartitionMissed` an input that fails.
- With a single revision in play and more pods of other revisions than replicas, the plan deletes from the updated group
  more pods than it has. Every pass then fails before any deletion, for ever (`Availability.FeasibleIff`,
  `Convergence.JammedForEver`). `Convergence.JammedInputJams` is such a workload, in a state that the invariant of all
  runs allows.
- `internal/util/history/controller_history.go:74-88`: when an update conflicts and the re-read after it fails, the next
  attempt finds the number it set in memory and reports success for a write that never happened.
  `History.SilentlyLost` is such an input; `History.WrittenIff` is the exact condition. After a lost renumbering the
  update revision does not have the highest stored number (`Activation.GetActiveRevisions`).
- `internal/util/refmanager/ref_manager.go:67-70` and `:90-93` mean to ignore pods that have vanished. The errors looked
  at there were formatted into new ones before, so they are never recognized and a vanished pod fails the claim
  (`Ownership.RefManager.ClaimObject`).
- `internal/util/refmanager/ref_manager.go:192-199` releases the first reference to the owner, which need not be the
  controller's. `Ownership.SecondLookIff` says when a pod then has to be released once more, and
  `Ownership.ReleasedTwice` is such a pod.
- `internal/controller/status/status.go:48-55` does not look at conditions: a scaling that fails without changing the
  counts is never reported (`Reporting.FailureUnreported`).

## Model

| member | source | states |
|---|---|---|
| Snapshot.GetPatch | internal/controller/revision/partitionworkload_revision.go:37-56 | the snapshot of a workload document holds its pod template, marked as replacing, and nothing else of it |
| Snapshot.ApplyReplacesTemplate | internal/controller/revision/partitionworkload_revision.go:37-74 | laying a snapshot of b over a changes a's template to b's and no other field, exactly when the template has no field named like the marker |
| Snapshot.SnapshotAfterApply | internal/controller/revision/partitionworkload_revision.go:37-74 | taking a snapshot of the result gives the same snapshot again |
| Snapshot.LastApplyWins | internal/controller/revision/partitionworkload_revision.go:58-74 | of two snapshots applied in turn only the second shows |
| Snapshot.SpecRoundTrip | internal/controller/revision/partitionworkload_revision.go:59-73 | decoding an encoded spec gives the spec, unset pointers included |
| Snapshot.ApplySnapshot | internal/controller/revision/partitionworkload_revision.go:58-74 | a spec restored at a revision has that revision's template and its own replicas, partition and selector |
| Snapshot.DataInjective | internal/controller/revision/partitionworkload_revision.go:37-56 | equal revision data comes from equal templates only |
| Planner.CountRevisions | internal/controller/sync/util.go:64-73 | the two counts are the sizes of the two groups of pods |
| Planner.GroupsPartition | internal/controller/sync/util.go:64-121 | the counting loop and the grouping loop split the pods into the same two parts, and no pod is lost or doubled |
| Planner.UnlabelledRunsNothing | internal/util/general/helpers.go:62-64 | a pod without the revision label counts as running no revision |
| Planner.CalculateDiffs | internal/controller/sync/util.go:41-110 | with two revisions the updated side is balanced to all replicas if no partition is set or a larger one is, and else to the partition, and the other side to the rest; with one revision the total alone is balanced; never up and down at once |
| Planner.GroupUpdatedAndNotUpdatedPods | internal/controller/sync/util.go:112-121 | both groups are new slices that hold the pods in their order, so sorting them cannot permute the caller's list |
| Planner.StampHashes | internal/controller/sync/util.go:158-172 | the stamped labels hold the whole revision name under controller-revision-hash and its part behind the last '-' under pod-template-hash, and every other label is the template's |
| Planner.WriteRevisionHash | internal/controller/sync/util.go:158-166 | so for a pod: both labels are written and no other label changes, and the pod reads as one of that revision |
| Planner.NewVersionedPods | internal/controller/sync/util.go:137-156 | the given number of pods, each with the template's labels so stamped, its body, and the workload as its only owner and controller |
| Planner.NewMultiVersionedPods | internal/controller/sync/util.go:123-135 | first the pods of the current revision, then those of the update revision, each as many as asked for |
| SlowStart.Channel.Receive | internal/controller/sync/sync.go:118-126 | pods come out first in first out, and a receive never meets an empty channel |
| SlowStart.CallOnce | internal/controller/sync/sync.go:125-131 | one receive and one attempt to create exactly that pod, which is the only call made, whatever others do meanwhile |
| SlowStart.CallBatch | internal/util/general/helpers.go:40-56 | every call of a batch is made whatever the others report, these are all the calls made, and its failures are counted exactly |
| SlowStart.DoItSlowly | internal/util/general/helpers.go:36-60 | the calls made are those up to the end of the batch of the first failure, or all, and no others; the number of successes is right, and an error is one that a refused attempt was answered with; the caller's pods are tried in order, each at most once, whatever others do meanwhile |
| SlowStart.SlowStartAccounts | internal/util/general/helpers.go:25-60 | for every pattern of failures: at most count calls, all of them if none fails; the batch of the first failure starts at a boundary of the doubling batches, follows only successes, and is as long as those and the first batch together unless the count ends it |
| SlowStart.BatchesLogarithmic | internal/util/general/helpers.go:39-58 | starting with one call, the number of batches is the least k for which 2^k exceeds the count |
| Sorting.SortInPlace | internal/util/general/helpers.go:21-23 | a sorted permutation; nothing is promised about ties |
| Executor.CreatePods | internal/controller/sync/sync.go:98-134 | the pods planned for both revisions are tried in order as a slow start goes, and an error is reported exactly when one is refused |
| Executor.SortPodsOldestFirst | internal/controller/sync/util.go:174-180 | the group is permuted so that creation times rise |
| Executor.Pick | internal/controller/sync/sync.go:146-160 | exactly the asked number of pods of the group, none younger than one that stays, or the error if there are too few |
| Executor.DeleteAll | internal/controller/sync/sync.go:167-173 | the only calls made are deletions in order, and they stop at the first refusal |
| Executor.DeletePods | internal/controller/sync/sync.go:140-174 | both groups lose their oldest pods; each of the two errors is returned exactly when its group is too small, before anything is deleted |
| Executor.ScaleAndUpdate | internal/controller/sync/sync.go:38-83 | in every run the calls made are those of a pass of the plan of the listed pods: creations, then deletions only if all creations were accepted; success is reported exactly when the whole plan was carried out, and else the error of the refused creation, of the group that is too small, or of the refused deletion; nothing happens without replicas |
| Guarantees.ClaimedCounts | internal/controller/sync/util.go:64-73 | the planner counts exactly the active pods the workload owns, on either side |
| Guarantees.PassVictims | internal/controller/sync/sync.go:145-160 | the pods picked for deletion are different ones, updated ones first, and each belongs to the side it is taken from |
| Guarantees.ReplayPods | internal/controller/sync/sync.go:70-80 | after any pod calls the old pods are as they were unless deleted, and every other pod is new |
| Guarantees.PassCounts | internal/controller/sync/sync.go:70-80 | after any k calls either side has moved by at most what was planned, deletions come after all creations, and at the end of a success by exactly what was planned |
| Availability.FloorAndCeiling | internal/controller/sync/sync.go:70-80 | after every call, whichever are refused, the total is at least the smaller of what it was and the replicas and at most their sum; with two revisions each side keeps its own floor |
| Availability.Progress | internal/controller/sync/util.go:75-107 | the distance to the goal falls by exactly one with every accepted call and never rises |
| Availability.ReachedIffPlanEmpty | internal/controller/sync/util.go:31-107 | the distance is zero if and only if the next plan is empty |
| Availability.OnePassExact | internal/controller/sync/util.go:41-110 | a pass without failure leaves exactly the replicas, and with two revisions exactly the partition of updated pods, from any mix of older revisions |
| Availability.PartitionPromised | api/v1alpha1/partitionworkload_types.go:46-52 | while two revisions are in play, a pass without failure leaves all replicas updated if no partition is set or a larger one is, and else exactly the partition |
| Availability.PartitionMetIff | api/v1alpha1/partitionworkload_types.go:46-52 | the promised partition is met after such a pass if and only if two revisions are in play or the other pods are already as many as the partition leaves out |
| Availability.PartitionMissed | internal/controller/sync/util.go:78-85 | two pods of the only revision, one of them wanted updated: an empty plan that misses the partition |
| Availability.FeasibleIff | internal/controller/sync/sync.go:146-160 | the errors about too few pods are out of reach if and only if two revisions are in play or the other pods are no more than the replicas |
| Availability.CreatesExactly | internal/controller/sync/sync.go:98-134 | with no refusal exactly the planned pods of either revision are created, the current revision's first; otherwise a first part of them |
| Availability.StartsWithOne | internal/controller/sync/sync.go:20-21 | the first creation is tried alone and the next two together: if the first is refused no other is made, and if one of those two is refused none after them |
| Availability.OldestFirst | internal/controller/sync/sync.go:145-171 | after any call of a pass no pod that is left is older than a deleted one of its side |
| Availability.RepeatedPassesArrive | internal/controller/sync/util.go:75-107 | repeated passes, each of which lands at least one call or is done, reach the goal within as many passes as pods were missing or in excess |
| Reporting.CalculateStatus | internal/controller/status/status.go:35-46 | the counts are those of the listed pods, and the current revision becomes the update exactly if the updated ones are all and as many as the replicas |
| Reporting.AllWithRevision | internal/controller/status/status.go:43-45 | the updated pods are as many as all exactly if every pod is updated |
| Reporting.ReportedAgrees | internal/controller/status/status.go:48-55 | what is stored afterwards agrees with the report in all that is compared, and is what was stored before exactly if that agreed already |
| Reporting.FailureUnreported | internal/controller/status/status.go:48-55 | a failure condition that leaves the counts as they were is not stored |
| Reporting.TryCommit | internal/controller/status/status.go:26-31 | one attempt replaces the status of the workload as stored at that moment and nothing else, or shows the refused write or failed read whose error it reports |
| Reporting.CommitStatusUpdate | internal/controller/status/status.go:24-33 | after every conflict there is another attempt until as many were made as there are steps, and after anything else none; the error is that of the last attempt; at most one write is accepted, at the end, exactly on success, and replaces the status alone of the latest version |
| Reporting.UpdateStatus | internal/controller/status/status.go:14-22 | the report of the pods listed before scaling is written if and only if it is inconsistent with the status read |
| History.ListControllerRevisions | internal/util/history/controller_history.go:19-34 | exactly the stored revisions the workload controls, each once |
| History.CreateOrGet | internal/util/history/controller_history.go:51-62 | one probe stores the revision, or finds what has its name as it is stored then, and makes no other call; it never changes a stored revision, whoever else writes |
| History.ProbingStops | internal/util/history/controller_history.go:46-67 | probing ends after at most as many collisions as revisions are stored, at a count that is determined by the store |
| History.CreateControllerRevision | internal/util/history/controller_history.go:36-68 | whoever else writes, as long as not without end: probing stops; the collision count rises by exactly the probes that met other data, each of which the log shows; the result is stored with the data asked for; and alone in the store it is the first free or equal name, and no stored revision changes |
| History.SilentlyLostIff | internal/util/history/controller_history.go:74-88 | the retry loop reports success without a write if and only if a conflict is retried after its re-read failed |
| History.SilentlyLost | internal/util/history/controller_history.go:74-88 | one conflict and one failed re-read are enough |
| History.EndsAsAnswered | internal/util/history/controller_history.go:74-88 | it is tried again after every conflict and after nothing else: a conflict is reported only if every attempt met one, and any other error is the answer to the last attempt |
| History.Attempt | internal/util/history/controller_history.go:78-87 | the calls are an accepted update, or a refused one and a re-read; an accepted one changed nothing but the number of the revision as the server had it at that moment, whoever wrote in between |
| History.RetryLandsOnce | internal/util/history/controller_history.go:74-88 | however many attempts there are, at most two calls are made for each, and one write at most is accepted, as the last call |
| History.UpdateControllerRevision | internal/util/history/controller_history.go:70-90 | the calls made are exactly those of the retry loop over the answers that the log shows, all of which it asked for, and the result is what the loop makes of them; at most one write is accepted, as the last event, and it changes only the number of the version it found |
| History.WrittenIff | internal/util/history/controller_history.go:70-90 | a reported success was written if and only if the log shows no conflict retried after a failed re-read |
| History.NoWriteLost | internal/util/history/controller_history.go:70-90 | whoever else writes, a success whose conflicts were all re-read changed, of the store as its last call found it, nothing but the number; or a re-read showed the number stored by somebody else |
| Ownership.ReleasedExactly | internal/util/refmanager/ref_manager.go:192-206 | a release takes out the first reference to the owner and keeps the order of all others |
| Ownership.AdoptedExactly | internal/util/refmanager/ref_manager.go:168-179 | an adoption puts one controller reference in place of the first to the owner or at the end |
| Ownership.KeepsOneController | internal/util/refmanager/ref_manager.go:168-214 | a pod with at most one controller has at most one afterwards |
| Ownership.ClaimedIsOwned | internal/util/refmanager/ref_manager.go:47-100 | claimed pods match and are controlled by the owner; pods controlled by others are not written; an owner being deleted writes nothing |
| Ownership.AllDealtWith | internal/util/refmanager/ref_manager.go:17-100 | every listed pod, once claiming has succeeded: controlled by the owner and selected, it is kept as it is; controlled but not selected, it loses its first reference to the owner; uncontrolled, selected and not terminating, it comes under the owner's control and is claimed; any other is let be; and an owner being deleted writes to none |
| Ownership.KeptInOrder | internal/util/refmanager/ref_manager.go:33-43 | the claimed pods keep the order of the list |
| Ownership.ReleaseFrees | internal/util/refmanager/ref_manager.go:192-206 | a released pod is uncontrolled exactly if its first reference to the owner was the controller's |
| Ownership.SecondLookIff | internal/util/refmanager/ref_manager.go:47-100 | a second claim of what the first left writes nothing and gives the same answer, exactly under that condition |
| Ownership.ReleasedTwice | internal/util/refmanager/ref_manager.go:192-206 | a pod whose first reference to the owner is not the controller's is still controlled after a release, and released again |
| Ownership.RefManager.CanAdopt | internal/util/refmanager/ref_manager.go:143-166 | adoption is allowed only if the owner as stored now has the same uid and is not being deleted; a read that fails shows in the log and is the answer |
| Ownership.RefManager.CanAdoptOnce | internal/util/refmanager/ref_manager.go:102-108 | the check is made once, with the same meaning, and its answer holds for all pods |
| Ownership.RefManager.AdoptPod | internal/util/refmanager/ref_manager.go:168-190 | in every run the write of the adopted references is the only call, made exactly if the check found nothing against it, and its refusal is wrapped up; else the check's error is, which shows in the log if this pod was the first to need it |
| Ownership.RefManager.ReleasePod | internal/util/refmanager/ref_manager.go:192-214 | in every run exactly one call, the write of the references without the first to the owner, accepted exactly if there is no error, and else the error is its refusal |
| Ownership.RefManager.ClaimObject | internal/util/refmanager/ref_manager.go:47-100 | a pod is claimed exactly if it should be and its write, if it needs one, is accepted; the calls made and the error are exactly those that the pod, the check and the server's answer determine; a write to a vanished pod is an error |
| Ownership.RefManager.ClaimOwnedObjects | internal/util/refmanager/ref_manager.go:17-44 | in every run each listed pod that needs a write gets its call, whatever became of those before it, but for adoptions that the check bars; the calls are in order and the error is the first; without an error exactly the writes needed are made and exactly the pods to be claimed are returned; none is adopted while the owner is being deleted |
| Protocol.CreationKeeps | internal/controller/sync/sync.go:70-75 | a pod created at any later moment of a pass names a revision that is still stored and has its template |
| Protocol.SettlementKeeps | internal/util/refmanager/ref_manager.go:47-100 | a release takes no pod that the invariant speaks of away and adds none; an adoption adds only a pod that waited for it when the run began |
| Protocol.StoringKeeps | internal/controller/partitionworkload_controller.go:218-238 | creating or renumbering a revision keeps data and numbers of all stored revisions different |
| Protocol.StatusKeeps | internal/controller/status/status.go:43-45 | the reported current revision is a stored one |
| Protocol.CollectionKeeps | internal/controller/partitionworkload_controller.go:314-357 | no revision is deleted that a pod names, even one created after the pods were listed |
| Protocol.InvStep | internal/controller/partitionworkload_controller.go:47-141 | whatever the protocol permits, and whatever others do, keeps the invariant |
| Protocol.EveryRunConsistent | internal/controller/partitionworkload_controller.go:47-141 | the invariant holds after every run of the protocol, with adoptions; of adopted pods it says only that they waited for adoption when the run began |
| Protocol.EveryMomentConsistent | internal/controller/partitionworkload_controller.go:47-141 | it holds at every moment of a run |
| Protocol.OwnComesFrom | internal/util/refmanager/ref_manager.go:47-100 | a pod becomes the workload's own only by being created, or by the adoption of one that nobody controlled when the run began |
| Protocol.CurrentMovesOnRollout | internal/controller/status/status.go:43-45 | the reported current revision changes only to the update revision, and only on a full rollout or as the first report |
| Protocol.FallbackUnreachable | internal/controller/partitionworkload_controller.go:240-251 | once a current revision was reported, every later pass finds the reported one stored and starts from it |
| Activation.Fetch | internal/controller/partitionworkload_controller.go:55-64 | the workload as stored at that moment is what the rest of the pass works with; a failed read is the only call and shows its error |
| Activation.GetActivePods | internal/controller/partitionworkload_controller.go:151-164 | all pods that are not terminating, each once |
| Activation.ClaimPods | internal/controller/partitionworkload_controller.go:166-187 | the pass goes on with exactly the pods to be claimed and after exactly the writes they need, or stops with the first error; a workload being deleted makes no call |
| Activation.ListSorted | internal/controller/partitionworkload_controller.go:91-98 | all stored revisions of the workload with strictly rising numbers |
| Activation.SortControllerRevisions | internal/controller/partitionworkload_controller.go:97-98 | a permutation sorted by number |
| Activation.NextComesNext | internal/controller/partitionworkload_controller.go:202-209 | the next number is one in an empty store, and else one more than that of a stored revision that no other exceeds |
| Activation.NewRevision | internal/controller/revision/partitionworkload_revision.go:14-35 | a revision that holds the snapshot of the workload's template under the next number |
| Activation.RollBack | internal/controller/partitionworkload_controller.go:225-231 | the calls are those of the retry loop on the equal revision; the renumbering puts it on top if and only if the log shows no conflict retried after a failed re-read, and changes no other |
| Activation.CreateNew | internal/controller/partitionworkload_controller.go:232-238 | the calls are probes that met other data and the one that created the revision or failed; data not stored yet is stored under an unused name with the highest number; the exit for equal data under a taken name is not taken |
| Activation.FirstProbe | internal/controller/partitionworkload_controller.go:195-200 | the first name tried for a new revision is that of the collision count last reported, or of none |
| Activation.GivesUpAfterFour | internal/util/history/controller_history.go:74-88 | a renumbering is given up for conflicts only after four attempts that all met one |
| Activation.StoresOnce | internal/controller/partitionworkload_controller.go:218-238 | of all the calls that store the update revision one is accepted at most, as the last and not with an error; they are no more than two for each attempt, or for each collision and the probe after it |
| Activation.ActivateUpdate | internal/controller/partitionworkload_controller.go:218-238 | in all three branches, failures included, the calls are none, those of the renumbering, or those of the creation; the update revision is stored with the template's data, and on top if and only if the log shows no lost renumbering |
| Activation.GetActiveRevisions | internal/controller/partitionworkload_controller.go:189-254 | besides, the update is reused as it is stored or has the number that comes next; the current revision is the one the status names if it is stored, and else the update; all events are permitted ones |
| Truncation.StaleListSuffices | internal/controller/partitionworkload_controller.go:314-333 | the list made before activation shows exactly the revisions not in use, with the numbers they still have |
| Truncation.TruncationExact | internal/controller/partitionworkload_controller.go:308-359 | a complete truncation leaves ten revisions not in use or all if fewer, those with the highest numbers, deletes none in use, and bounds the store by ten, two and the claimed pods |
| Truncation.LiveOrLeft | internal/controller/partitionworkload_controller.go:335-341 | a store holds its unused revisions, two, and at most one for each pod |
| Controller.SyncPods | internal/controller/partitionworkload_controller.go:256-297 | no call is made while the workload is being deleted; otherwise the calls made are a pass towards the spec with pods of both restored templates, in every run, and a failure shows in the status and has the error of the call or group that stopped it |
| Controller.Report | internal/controller/partitionworkload_controller.go:123-126 | the report is of the pods as they were claimed, before scaling; it is given up for conflicts only after four of them |
| Controller.FindNonLive | internal/controller/partitionworkload_controller.go:314-333 | exactly the listed revisions that are neither current nor update nor run by a claimed pod, in order |
| Controller.DeleteRevisions | internal/controller/partitionworkload_controller.go:351-358 | a first part of the list is deleted, all of it exactly if no deletion fails |
| Controller.TruncateHistory | internal/controller/partitionworkload_controller.go:308-359 | the calls made delete a first part of the surplus over the limit, in order, all of it exactly on success, and stop at the first refusal |
| Controller.Prepare | internal/controller/partitionworkload_controller.go:72-106 | up to the choice of revisions only permitted events happen; an error is that of the step the pass stopped at and leaves the revisions alone, and the calls made until then are those of claiming, then those of activating, as far as the pass came |
| Controller.RollOut | internal/controller/partitionworkload_controller.go:113-140 | from the choice of revisions on only permitted events happen, and the calls made are in this order the pass, the report, and unless that failed the truncation; success means that scaling and reporting both succeeded |
| Controller.Reconcile | internal/controller/partitionworkload_controller.go:47-141 | every pass, however it fails, is a run of the protocol; its calls are in order those of claiming, activating, rolling, reporting and truncating, each step's calls exactly, as far as it came, for the workload, pods and revisions that the log shows it noted; the revisions change only by activation and a first part of the truncation, with the update on top if and only if the log shows no lost renumbering; from the listing on it keeps at every moment the pods it had or should have, less those that died, if no pod waited to be adopted when the run began; a workload that is not found ends the pass without an error, and any other failed read, claim or activation with its own; after that the error is the report's, or else that of scaling; an undisturbed pass is a full sweep, and succeeds exactly if its plan can be carried out |
| Resilience.SideAmongOthers | internal/controller/sync/sync.go:70-80 | over any log in which others act too, either side of the pods grows by no more than what is created, and shrinks by no more than what is deleted and what dies |
| Resilience.FloorAmongOthers | internal/controller/sync/sync.go:70-80 | however the calls of a pass mix with others' actions, and after any of them: the total and, with two revisions, each side is at least the smaller of what it was and should be, less the pods that died; and the total is at most its start and the replicas |
| Resilience.PassListed | internal/controller/partitionworkload_controller.go:151-187 | every pass that has come to claiming works from one listing of all active pods, and with no pods but those |
| Resilience.PassKeepsEnough | internal/controller/partitionworkload_controller.go:113-140 | so from the listing to the end of every pass, at every moment of it, when no pod waited to be adopted as the run began |
| Convergence.ClaimingSettles | internal/util/refmanager/ref_manager.go:33-43 | claiming deals with every listed pod once and leaves all others alone |
| Convergence.ClaimedAreOwn | internal/controller/partitionworkload_controller.go:166-187 | once claiming is done the claimed pods are exactly the workload's own |
| Convergence.SweepPass | internal/controller/partitionworkload_controller.go:256-297 | what a sweep does to the pods is a pass from the workload's own pods towards pods it will own |
| Convergence.SweepHandsOver | internal/controller/partitionworkload_controller.go:202-251 | the next sweep finds the same update revision on top, and the reported current revision stored |
| Convergence.SweepDeals | internal/util/refmanager/ref_manager.go:17-100 | after one sweep no pod has to be adopted or released, if those to be released have the controller's as their first and only controlling reference to the workload |
| Convergence.SweepAdopts | internal/util/refmanager/ref_manager.go:77-99 | after one sweep no active pod that the workload selects is without a controller |
| Convergence.FirstSweep | internal/controller/partitionworkload_controller.go:120-121 | such a sweep brings the pods to rest: at the goal exactly if its plan can be carried out, and else where claiming left them |
| Convergence.SecondSweep | internal/controller/partitionworkload_controller.go:123-126 | the next one brings the status to rest, also when it promotes the update revision |
| Convergence.ThirdSweep | internal/controller/partitionworkload_controller.go:128-131 | the one after that writes no status and brings the revisions to rest |
| Convergence.FourthSweep | internal/controller/partitionworkload_controller.go:92-140 | and then a sweep writes nothing at all |
| Convergence.Quiescence | internal/controller/partitionworkload_controller.go:92-140 | for any number of undisturbed sweeps from any start in which one release is enough for each pod: pods fixed from the first on, the workload from the second, everything from the third; at the goal exactly if the first plan can be carried out |
| Convergence.PlanFits | internal/controller/sync/sync.go:146-160 | whether the first plan can be carried out, in terms of the pods and revisions alone |
| Convergence.JammedForEver | internal/controller/sync/util.go:78-85 | if it cannot, no sweep from such a start ever creates or deletes a pod |
| Convergence.JammedInputJams | internal/controller/sync/util.go:78-85 | a workload of one revision, in a state that the invariant allows, that wants no pod and can delete none of the one it has |
| Convergence.ReplicasReachedIff | internal/controller/sync/util.go:78-85 | undisturbed sweeps from such a start reach the replicas if and only if it can |
| Convergence.PartitionReachedIff | api/v1alpha1/partitionworkload_types.go:46-52 | the promised partition is met in the end if and only if two revisions were in play at first, or the partition left out as many pods as ran others, or, where the plan cannot be carried out, it asked for as many as ran the update |
| Convergence.ReleasedInTime | internal/util/refmanager/ref_manager.go:192-206 | from any start, a pod that refers to the workload n times and has to be released is dealt with after n sweeps |
| Convergence.QuiescenceFromAnyStart | internal/controller/partitionworkload_controller.go:92-140 | so without any condition on owner references: the pods are fixed from the first sweep after those on, the workload from the second, everything from the third |
| Runs.Run | internal/controller/partitionworkload_controller.go:47-141 | any number of passes among others' actions: the store is consistent at every moment |
| Runs.RunUndisturbed | internal/controller/partitionworkload_controller.go:92-140 | any number of undisturbed passes from a start in which one release is enough for each pod: nothing is written after the third, and the goal is reached exactly if the first plan can be carried out |
| Runs.ScaleRepeatedly | internal/controller/sync/sync.go:38-83 | repeated scaling towards one goal, calls of which may be refused, is a chain of passes, each from where the one before ended, and reaches the goal within as many passes as pods were missing or in excess if each that is not there lands a call |

## Left out

- SlowStart.CallBatch: the calls of one batch are made one after the other in the order of the channel; the goroutines of
  the source may reach the server in another order, and which of several errors is reported is then open.
- Ownership.RefManager.AdoptPod: pods carry no resource version, so a conflict on a pod is one of the refusals a call may
  meet for no reason in the store; the library compares references by group, kind and name, here by uid.
- Ownership.RefManager.ClaimOwnedObjects: the optional filters, which no caller passes, and the aggregation of several
  errors into one.
- Ownership.RefManager.CanAdopt: failed conversions between Go types.
- Controller.Reconcile: requires a store in which nobody else writes this workload's revisions. A selector that does not
  parse and conversion errors of the JSON documents do not occur.
- Protocol.EveryRunConsistent: says nothing of the revision that an adopted pod names, which may never have been stored.
- Resilience.PassKeepsEnough: is about runs that begin with no pod to adopt; a pass that adopts pods gains them on either
  side at moments of its own.
- Convergence.Quiescence: is about passes in which no call fails without cause and nobody else acts; failures are the
  subject of `Availability.RepeatedPassesArrive` and `Runs.Run`.
- History.CreateControllerRevision: others write revisions any number of times, but not without end; against writers that
  for ever take the next name the loop of the source need not end.
- Runs.ScaleRepeatedly: no pod dies between its calls, so that each pass starts from what it listed.
- Snapshot.GetPatch: annotations copied onto the revision, and the document's serialization to bytes.
- Snapshot.ApplyReplacesTemplate: of the strategic merge patch only the recursion over maps and the replace directive;
  other directives, deletion by null and merge keys of lists do not occur in these patches.
- Reporting.CalculateStatus: conditions beyond the one that scaling failed, with their times and messages.
- A refused call has no effect; a call whose answer is lost after it took effect is not modelled.
- Hashing: the name of a revision is any function of its data and the collision count that gives different names for
  different counts and never the empty name.
- Equality of revisions is equality of their data, and sorting of revisions is by number; both come from a library.
- Integers are unbounded; the 32-bit and 64-bit counters of the source do not wrap around.
- A selector is a set of required labels, fixed for the life of the workload, which the template's labels match, and
  which does not ask for the two labels that the controller stamps.
- The listing of revisions is complete: it is not narrowed by labels.
- Pods that have finished or are being deleted are one kind, terminating; a deletion removes its pod at once.
- Wall-clock time, backoff and requeueing; caches and watches; logging.
- The admission webhook, the field index, the manager's setup and the deployment manifests.
