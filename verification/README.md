# Verified model of the Kubernetes CSI-Addons controllers

This project models the parts of the CSI-Addons manager and sidecar in which several programs must
agree with each other through shared objects, and proves what they rely on: safety of the
group-replication protocol over every interleaving, termination of its deletion, the truth of the
replication status, at-most-once scheduling, faithful caches, and text that is printed by one side and
parsed by the other. `dafny verify dfyconfig.toml` checks everything.

## Layout

| files | what they model |
|---|---|
| `GroupModel`, `GroupSafety`, `GroupBacking`, `GroupOrder`, `GroupRaces`, `GroupTheorems`, `GroupClosing`, `GroupProgress`, `GroupSchedules`, `GroupDeletion`, `GroupRefusals`, `GroupEffects` | the VolumeGroupReplication (VGR), VolumeGroupReplicationContent (content) and VolumeReplication (VR) controllers as one transition system |
| `PvcOwnership` | which group a PersistentVolumeClaim belongs to |
| `Conditions`, `VolumeReplication`, `Outcomes` | the condition list of a VR, its Primary / Secondary / Resync state machine, and what each case of it asks, stores and shows |
| `CronSchedule`, `ReclaimSpaceJob`, `ReclaimSpaceCron`, `ReclaimSpaceRuns` | the reclaim-space scheduler, the job it spawns, the two together, and what they must be promised |
| `ConditionReporter`, `ConnectionPool` | the sidecar's volume-condition cache and the manager's connection pool |
| `Decimal`, `Endpoint`, `RetryBackoff` | `pod://` endpoints and the retry counter in the status text |
| `FenceClasses` | NetworkFenceClass names on CSIAddonsNode objects |
| `Wrappers` | the option type |

## The group protocol

`GroupModel` has one step per cache read, API write and RPC, so that a sequence of steps is an
interleaving of the three controllers. Each object keeps the log of its versions and the informer cache
is a position in that log, so every read may be stale; a write is accepted only if it was computed from
the newest version, and any write or RPC may fail. There is one VR and one content per VGR, users do
not edit annotations or finalizers, and each controller runs one reconcile per object at a time. The
steps and where they come from:

- `BeginVr`, `FetchVgrVr`, `FetchContentVr`: internal/controller/replication.storage/volumereplication_controller.go:155-188 and 848-878
- `AddFinVr`, `OwnVgrVr`, `GuardVr`, `UpdateVr`, `EnableVr`: volumereplication_controller.go:228-256, 309-335, 815-846
- `DisableVr`, `UnguardVr`, `DisownVr`, `DropFinVr`: volumereplication_controller.go:257-307, 714-734, 880-892
- `BeginContent` to `RecordHandle`: volumegroupreplicationcontent_controller.go:71-133, 181-204, 265-297
- `DeleteGroup`, `DisownContent`, `DropFinContent`: volumegroupreplicationcontent_controller.go:134-178, 299-311
- `BeginVgr` to `NameVr`: volumegroupreplication_controller.go:102-275, 699-749, 772-797
- `DelVr`, `DelContent`, `ReleasePvcs`, `DropFinVgr`: volumegroupreplication_controller.go:276-321, 675-697, 751-770, 799-818 and finalizers.go:117-169

## What the proofs found

Where a promise fails, the named lemma gives the run or the input, and a condition lemma says exactly when it holds.

- The guard on the content can be orphaned, and a group can be deleted while replication is enabled on
  it, when the VR controller reads copies that predate its own writes (`GroupRaces.LagOrphansGuard`,
  `GroupRaces.LagUnguardsEnable`).
- A VR or a content that is not announced on the VGR can be left behind for good: once the VGR is gone, the VR's
  delete path looks up an annotation through a nil VGR (volumereplication_controller.go:290 and 881), which the
  model treats as an aborted reconcile. A run reaches such a start by marking the VGR at the wrong moment
  (`GroupDeletion.UnannouncedReached`), or by refusing one write (`GroupDeletion.RefusedReached`); the exact
  conditions are `GroupDeletion.DeletionCondition` and `GroupRefusals.RefusalOutcome`.
- A VGR that takes its annotation off a PVC and then loses its status write lets two groups list the
  same PVC, and so does one that selects a PVC again on a copy older than its own release
  (`PvcOwnership.LostStatusWriteShares`, `PvcOwnership.StaleCopyShares`, `PvcOwnership.SharingCondition`).
- A lost status write after a promotion or demotion leaves `Status.State` untrue
  (`VolumeReplication.LostDemotion`, `VolumeReplication.StateIsTrue`).
- With either history limit 0 a cron tick is started twice, a stale list of children lets two jobs run at once, and
  jobs without a claim, which fail before they have a start time, are pruned in list order
  (`ReclaimSpaceRuns.ForgottenTickRuns`, `ReclaimSpaceRuns.HiddenJobRuns`, `ReclaimSpaceRuns.LostRuns`,
  `ReclaimSpaceRuns.HistoryCondition`).
- The sidecar documents the namespace of an endpoint as optional; the manager rejects such an endpoint,
  or takes the end of a dotted pod name for the namespace (`Endpoint.WithoutNamespace`).
- A connection of a driver that cannot be reached fails the lookup for every node of the driver, by the contract of
  `ConnectionPool.Pool.GetByNodeID`.
- A stale list of nodes lets a NetworkFenceClass go while a node still lists it
  (`FenceClasses.StaleListLeavesName`, `FenceClasses.FinalizerCondition`).

## Model

| member | source | states |
|---|---|---|
| `GroupTheorems.RunInvariants` | internal/controller/replication.storage/volumereplication_controller.go:228-307 | after every interleaving, with stale reads and failing writes: the copies in use are versions that existed, and the guard, backing and order invariants hold |
| `GroupTheorems.DeleteNeverWhileEnabled` | internal/controller/replication.storage/volumegroupreplicationcontent_controller.go:134-178 | DeleteVolumeGroup is never issued between a successful Enable and its Disable, if reads show the VR controller's own writes or no VR is created twice |
| `GroupTheorems.DeleteSafetyCondition` | internal/controller/replication.storage/volumegroupreplicationcontent_controller.go:134-178 | the same over all runs, if and only if that condition on the cache holds |
| `GroupTheorems.NoOrphanCondition` | internal/controller/replication.storage/volumereplication_controller.go:229-302 | in every reachable state a VR finalizer on the content or a VR annotation on the VGR belongs to a VR that holds its finalizer, if and only if reads show the VR controller's own writes |
| `GroupTheorems.RecordedGroupDeletedFirst` | internal/controller/replication.storage/volumegroupreplication_controller.go:295-310 | a group whose handle was recorded is deleted on the backend before the VGR loses its finalizer; until then the VGR keeps its finalizer and the content's annotation |
| `GroupSafety.BaseStep` | internal/controller/replication.storage/finalizers.go:39-169 | every step keeps copies equal to logged versions, keeps handles and deletion marks, and adds no guard to a content marked for deletion |
| `GroupSafety.GuardStep` | internal/controller/replication.storage/volumereplication_controller.go:228-307 | every step keeps the guard invariant: an enabled group is covered by the VR finalizer on the content |
| `GroupBacking.BackingStep` | internal/controller/replication.storage/volumegroupreplicationcontent_controller.go:122-204 | every step keeps the backing invariant: a recorded group that exists is pinned by the content's annotation and the VGR's finalizer |
| `GroupBacking.FinalizerGoesLast` | internal/controller/replication.storage/finalizers.go:117-169 | the step that takes the VGR's finalizer finds a recorded group already deleted |
| `GroupRaces.VrEnabled` | internal/controller/replication.storage/volumegroupreplication_controller.go:196-275 | from a fresh VGR the three controllers reach a recorded, guarded and enabled group, under either rule for the cache |
| `GroupRaces.LagOrphansGuard` | internal/controller/replication.storage/volumereplication_controller.go:279-302 | a run in which a teardown from stale copies removes nothing and lets the VR go, leaving its guard |
| `GroupRaces.LagUnguardsEnable` | internal/controller/replication.storage/volumereplication_controller.go:228-256 | a run in which a second VR trusts the first one's guard in a stale copy, so that the enabled group is deleted |
| `GroupOrder.OrderStep` | internal/controller/replication.storage/volumereplication_controller.go:228-256 | every step keeps the order of writes: a VR is announced before it guards, exists before it is named, and a group on the backend belongs to a content that the VGR controller created |
| `GroupClosing.StepSinks` | internal/controller/replication.storage/volumegroupreplication_controller.go:276-321 | once the cache shows the VGR marked and no set-up of it is in flight, no action at all brings VR, content or VGR back: their ranks never rise under stale reads, refused writes and failed calls |
| `GroupClosing.ShutStays` | internal/controller/replication.storage/volumegroupreplication_controller.go:102-195 | that situation, once reached, lasts |
| `GroupClosing.ClosingStep` | internal/controller/replication.storage/volumegroupreplicationcontent_controller.go:134-178 | every single step of a run without failed teardown writes keeps the closing invariant, whatever caches and compare-and-swap conflicts do, and while others write to the VR and the content until these are marked |
| `GroupProgress.ShutsLower` | internal/controller/replication.storage/volumereplication_controller.go:258-307 | no such step raises the measure over VR, content, guard and annotations, and one that keeps it writes at most to an unmarked object |
| `GroupProgress.TrackStep` | internal/controller/replication.storage/volumereplication_controller.go:258-307 | the reconcile that is due, begun on a caught-up cache, lowers the measure before it ends, whatever other steps come between |
| `GroupProgress.RoundLowers` | internal/controller/replication.storage/volumegroupreplication_controller.go:276-321 | every interleaving of single steps that serves each controller once lowers the measure |
| `GroupProgress.RoundsFinish` | internal/controller/replication.storage/volumegroupreplicationcontent_controller.go:139-173 | as many such rounds as the measure end with all three objects gone, the group deleted and disabled and the PVCs released |
| `GroupSchedules.FairRoundExists` | internal/controller/replication.storage/volumegroupreplication_controller.go:276-321 | from every reachable state there is such a round, without any failure: each controller can end what it is doing and complete one reconcile on a caught-up cache |
| `GroupSchedules.FairRoundsExist` | internal/controller/replication.storage/volumegroupreplication_controller.go:276-321 | so there are fair schedules of every length |
| `GroupDeletion.FinishesIf` | internal/controller/replication.storage/volumegroupreplication_controller.go:276-321 | from every reachable state with announced dependents, and set-ups in flight, there are fair schedules and deletion finishes in every one of them |
| `GroupDeletion.StrandedForGood` | internal/controller/replication.storage/volumereplication_controller.go:155-188 | a VR or a content left without its VGR stays, whatever happens next |
| `GroupDeletion.StrandsUnless` | internal/controller/replication.storage/finalizers.go:163-169 | from a start where a dependent is not announced, a fair schedule without any failure strands it |
| `GroupDeletion.UnannouncedReached` | internal/controller/replication.storage/volumereplication_controller.go:229-256 | a run that marks the VGR between two writes of the VR's first reconcile and so reaches such a start |
| `GroupDeletion.AnnouncedReached` | internal/controller/replication.storage/volumereplication_controller.go:229-256 | a run that marks the VGR of a group in full operation, with both dependents announced |
| `GroupDeletion.RefusedReached` | internal/controller/replication.storage/volumereplication_controller.go:279-302 | a run in which a deleted VR is refused its last write and is left unannounced |
| `GroupRefusals.RefusalCondition` | internal/controller/replication.storage/volumereplication_controller.go:279-302 | a failed step breaks the closing invariant if and only if it stops a VR or content whose annotation is already off from dropping its finalizer |
| `GroupRefusals.RefusalOutcome` | internal/controller/replication.storage/volumereplication_controller.go:279-302 | after any next step, failing in any way, deletion finishes in every fair interleaving, if and only if the step does not cut off an object like that; if it does, a fair schedule strands the object |
| `GroupRefusals.FailuresOnlyDelay` | internal/controller/replication.storage/volumegroupreplicationcontent_controller.go:161-172 | after any number of other failures, deletion still finishes in every fair interleaving |
| `GroupDeletion.DeletionCondition` | internal/controller/replication.storage/volumegroupreplication_controller.go:276-321 | from every quiet, caught-up state that a run reaches with a marked VGR and finalized, named dependents: fair schedules of single steps exist and every one of eight rounds finishes, if and only if the content and an existing VR are announced on the VGR |
| `GroupEffects.GroupOfLiveVgrStays` | internal/controller/replication.storage/volumegroupreplicationcontent_controller.go:134-178 | in every run DeleteVolumeGroup is issued only when the VGR is marked or gone, and so is the content |
| `GroupEffects.VrMarkedForVgr` | internal/controller/replication.storage/volumegroupreplication_controller.go:276-284 | a live VR is marked only by its user, or for a VGR that was marked and names it |
| `GroupEffects.ContentMarkedForVgr` | internal/controller/replication.storage/volumegroupreplication_controller.go:286-292 | the same for a content |
| `GroupEffects.VrCreatedForVgr` | internal/controller/replication.storage/volumegroupreplication_controller.go:772-797 | a VR is created only for a VGR that was alive and finalized, and after the cache has shown the handle of the group |
| `GroupEffects.ContentCreatedForVgr` | internal/controller/replication.storage/volumegroupreplication_controller.go:699-749 | a content is created only by an administrator, or for a VGR that was alive and finalized and named none |
| `GroupEffects.GroupChanges` | internal/controller/replication.storage/volumegroupreplicationcontent_controller.go:144-204 | exactly the create and delete calls of the content controller change the group, and a failed call may have taken effect |
| `GroupEffects.ReplicationChanges` | internal/controller/replication.storage/volumereplication_controller.go:714-756 | exactly Enable, with a handle, and Disable of the VR controller change whether replication is enabled, and a failed call may have taken effect |
| `GroupEffects.EnabledForVr` | internal/controller/replication.storage/volumereplication_controller.go:228-256 | replication becomes enabled only for a VR that was alive and finalized, as an accepted write had just confirmed, and whose VGR names its content, on a content with a handle and the guard |
| `GroupEffects.DisabledForVr` | internal/controller/replication.storage/volumereplication_controller.go:257-279 | it is disabled only for a VR that was marked and still finalized, on a content with a handle |
| `GroupEffects.GroupCreatedForContent` | internal/controller/replication.storage/volumegroupreplicationcontent_controller.go:181-204 | a group is created only for a content that was alive and had no handle |
| `GroupEffects.RunHolds` | internal/controller/replication.storage/volumegroupreplication_controller.go:208-224 | in every run whose selections are not cut short, a live VGR holds its listed PVCs and no others, and holds none once its finalizer is gone |
| `PvcOwnership.Api.Claim` | internal/controller/replication.storage/pvc.go:70-108 | on a copy of the PVC, stale or not, and on the fields: a successful claim leaves this owner, the finalizer and the VR owner as it was, and writes nothing if the copy shows that done; it fails only for a refused write, a foreign or second owner on the copy, or a copy that is not current |
| `PvcOwnership.Api.Release` | internal/controller/replication.storage/pvc.go:110-123 | on the fields: a successful release leaves neither annotation nor finalizer and the VR owner as it was, and writes nothing if the copy shows both gone; it fails only for a refused write or a copy that is not current, and then at most the annotation is off |
| `PvcOwnership.Compare` | internal/controller/replication.storage/volumegroupreplication_controller.go:606-629 | the PVCs to add are the selected ones not listed, and the new list is the selection |
| `PvcOwnership.FindRemoved` | internal/controller/replication.storage/volumegroupreplication_controller.go:631-642 | in any map order the PVCs to remove are the listed ones not selected; it fails exactly if the cache lacks one of them |
| `PvcOwnership.UpdatePvcs` | internal/controller/replication.storage/volumegroupreplication_controller.go:603-673 | on whatever copies the cache holds: success moves exactly the two set differences, so that a PVC that leaves has lost owner and finalizer and a new one has got them, each with its VR owner kept, unless its copy wrongly showed that done; a failure stops somewhere on the way with every addition before any removal, it fails only for a refused write, a foreign owner, a conflict or a missing PVC, and an unchanged selection writes nothing |
| `PvcOwnership.UpdateIsExact` | internal/controller/replication.storage/volumegroupreplication_controller.go:603-673 | if the list was exactly the owned PVCs and the copies show the VGR's own writes, then exactly the selected ones are owned and finalized afterwards, those that left carry neither owner nor finalizer, VR owners stay, and PVCs of others are untouched |
| `PvcOwnership.ForeignOwnerKept` | internal/controller/replication.storage/pvc.go:82-104 | a foreign owner survives an update that fails half-way |
| `PvcOwnership.FailureCondition` | internal/controller/replication.storage/volumegroupreplication_controller.go:603-673 | every failure a reconcile can leave keeps all listed PVCs labelled, if and only if every PVC it would drop conflicts with its copy, or one of its additions is refused |
| `PvcOwnership.NeverShared` | internal/controller/replication.storage/volumegroupreplication_controller.go:603-697 | with any number of VGRs, overlapping selectors, lagging caches that show a VGR's own writes, and reconciles that fail while dropping nothing, no PVC is in two lists, and each listed PVC carries its VGR's annotation |
| `PvcOwnership.FinishFrees` | internal/controller/replication.storage/volumegroupreplication_controller.go:675-697 | after any such run, a VGR that is finished leaves owner and finalizer on none of its listed PVCs and touches no other PVC, if and only if no copy wrongly shows one as free already |
| `PvcOwnership.RunKeepsVrOwner` | internal/controller/replication.storage/pvc.go:70-123 | in every run, with any failures and copies, no PVC loses or gains a VR owner |
| `PvcOwnership.StrayCondition` | internal/controller/replication.storage/volumegroupreplication_controller.go:660-671 | over all runs no PVC carries the finalizer without an owner, if and only if reconciles fail only where they drop nothing |
| `PvcOwnership.HalfReleased` | internal/controller/replication.storage/volumegroupreplication_controller.go:660-671 | a run in which a reconcile fails between the two writes of a release |
| `PvcOwnership.LostStatusWriteShares` | internal/controller/replication.storage/volumegroupreplication_controller.go:215-224 | a run from an unowned PVC in which a lost status write after a removal puts it in two lists |
| `PvcOwnership.StaleCopyShares` | internal/controller/replication.storage/pvc.go:82-104 | a run without any failure in which a copy that predates the VGR's own release puts a PVC in two lists |
| `PvcOwnership.SharingCondition` | internal/controller/replication.storage/volumegroupreplication_controller.go:208-224 | over all runs no PVC is shared, if and only if copies show the VGR's own writes and reconciles fail only where they drop nothing |
| `Conditions.FindCondition` | internal/controller/replication.storage/status.go:313-322 | the first entry of the type, or the end |
| `Conditions.ConditionList.SetStatusCondition` | internal/controller/replication.storage/status.go:290-311 | the list becomes the old one with the condition put in place or appended, dated anew only on a flip |
| `Conditions.ConditionList.RemoveCondition` | internal/controller/replication.storage/status.go:324-328 | the list loses all entries of the type and nothing else |
| `Conditions.PutFace` | internal/controller/replication.storage/status.go:290-311 | after a condition is set its type shows exactly its status, reason, message and generation, and all other types show what they did |
| `Conditions.DropFace` | internal/controller/replication.storage/status.go:324-328 | after a removal the type is absent and all other types show what they did |
| `Conditions.FollowsStep` | internal/controller/replication.storage/status.go:290-328 | putting or removing one condition keeps the list in step with the trace of operations |
| `Conditions.ListFollowsTrace` | internal/controller/replication.storage/status.go:290-328 | after any operations the list has one entry per type, each with the status of its last operation and the time of its last insertion or flip |
| `VolumeReplication.Instance.SetConditions` | internal/controller/replication.storage/status.go:40-288 | the set*Condition functions perform their conditions in order on the list |
| `VolumeReplication.Instance.MarkVolumeAsPrimary` | internal/controller/replication.storage/volumereplication_controller.go:625-656 | promotion, forced only after a failed precondition, and the condition of each failure |
| `VolumeReplication.Instance.ResyncVolume` | internal/controller/replication.storage/volumereplication_controller.go:678-711 | the four answers to a resync, their conditions and whether to requeue |
| `VolumeReplication.Instance.Reconcile` | internal/controller/replication.storage/volumereplication_controller.go:309-487 | calls, conditions and stored state are those of the decision function, for every spec, state and answers; `Outcomes` says for every case what these are |
| `VolumeReplication.Instance.FailEarly` | internal/controller/replication.storage/volumereplication_controller.go:785-795 | a failure before the backend is reached sets the conditions of the wanted state and keeps the state |
| `Outcomes.AllOpsFaces` | internal/controller/replication.storage/status.go:40-288 | what every condition function shows of every type, as a table, for any sequence of them on any list |
| `Outcomes.PrimaryOutcome` | internal/controller/replication.storage/volumereplication_controller.go:319-335 | a Primary spec that succeeds ends in Primary, with Enable and then Promote, forced exactly after a known error, unless Primary is stored; Completed, not Degraded, not Resyncing; and what Replicating becomes for each answer of the replication info |
| `Outcomes.PromotionFailedOutcome` | internal/controller/replication.storage/volumereplication_controller.go:625-656 | a promotion that fails: which calls succeeded, the state kept, the failure conditions, and Validated by the kind of error |
| `Outcomes.DemoteOutcome` | internal/controller/replication.storage/volumereplication_controller.go:338-360 | a first demotion issues Demote, stores Secondary and shows the volume demoted and degraded; a failed one keeps the state and shows the failure |
| `Outcomes.ResecondReadyOutcome` | internal/controller/replication.storage/volumereplication_controller.go:361-374 | a stored Secondary is demoted again and resynced, forced exactly if the spec says so; when that is ready the volume is shown healthy and Replicating is removed |
| `Outcomes.ResecondPendingOutcome` | internal/controller/replication.storage/volumereplication_controller.go:361-374 | the same while the resync goes on: degraded and resyncing |
| `Outcomes.ResecondFailedOutcome` | internal/controller/replication.storage/volumereplication_controller.go:361-374 | the same when the resync fails or answers in an unexpected type |
| `Outcomes.ResyncReadyOutcome` | internal/controller/replication.storage/volumereplication_controller.go:376-378 | a Resync spec answered ready issues exactly one Resync, forced, stores Secondary, and shows Completed, not Degraded and not Resyncing |
| `Outcomes.ResyncPendingOutcome` | internal/controller/replication.storage/volumereplication_controller.go:376-378 | a resync that goes on keeps the state and shows the volume degraded and resyncing, without Replicating |
| `Outcomes.ResyncFailedOutcome` | internal/controller/replication.storage/volumereplication_controller.go:678-711 | a resync that fails or answers in an unexpected type keeps the state and shows the failure |
| `Outcomes.EarlyOutcome` | internal/controller/replication.storage/volumereplication_controller.go:785-795 | a failure before the backend is reached calls nothing, keeps the state and shows the failure of what was wanted |
| `Outcomes.UnsupportedOutcome` | internal/controller/replication.storage/volumereplication_controller.go:380-389 | an unsupported state calls nothing and changes neither state nor conditions |
| `VolumeReplication.StepTruth` | internal/controller/replication.storage/volumereplication_controller.go:319-487 | one reconcile keeps Status.State true of the backend, if and only if its write is stored or the answers do not make it promote a stored Secondary or demote a stored Primary |
| `VolumeReplication.StateIsTrue` | internal/controller/replication.storage/utils.go:32-51 | all through a run Primary implies that the last of Promote and Demote was a Promote, and Secondary a Demote or ready Resync since the last Promote, if and only if no status write is lost just when the volume turns |
| `VolumeReplication.LostDemotion` | internal/controller/replication.storage/volumereplication_controller.go:338-360 | a stored promotion and a demotion whose status write is lost leave the state Primary on a demoted volume |
| `VolumeReplication.DecisionCoherent` | internal/controller/replication.storage/status.go:40-253 | the groups of conditions one reconcile sets leave Completed, Degraded and Resyncing coherent |
| `VolumeReplication.ConditionsAreCoherent` | internal/controller/replication.storage/volumereplication_controller.go:319-418 | in every persisted state, lost writes included: one entry per type, dated by its last flip; the three core conditions all there or all absent; not completed implies degraded and not resyncing; resyncing implies completed and degraded |
| `CronSchedule.NextIsLeastTick` | internal/controller/csiaddons/reclaimspacecronjob_controller.go:357-400 | Next gives the least tick after a time |
| `CronSchedule.FindMissed` | internal/controller/csiaddons/reclaimspacecronjob_controller.go:380-400 | the loop ends, fails exactly if more than 100 ticks were missed, and otherwise finds the greatest missed one |
| `CronSchedule.GetNextSchedule` | internal/controller/csiaddons/reclaimspacecronjob_controller.go:357-400 | it fails exactly if more than 100 ticks were missed, where a tick is missed if it has passed, is later than the last schedule (or the creation, without one) and not older than the starting deadline; otherwise it gives the greatest missed tick, if any, and the least tick after now |
| `ReclaimSpaceJob.Job.Reconcile` | internal/controller/csiaddons/reclaimspacejob_controller.go:106-162 | one visit: final results, invalid specs, defaults, and failure at the retry limit |
| `ReclaimSpaceJob.ResultIsFinal` | internal/controller/csiaddons/reclaimspacejob_controller.go:106-111 | a finished job's status never changes |
| `ReclaimSpaceJob.SuccessMeansWorked` | internal/controller/csiaddons/reclaimspacejob_controller.go:198-290 | in every run a job is successful if and only if one of its attempts worked |
| `ReclaimSpaceJob.RunSound` | internal/controller/csiaddons/reclaimspacejob_controller.go:128-155 | retries never exceed the effective limit, and a result always has a completion time |
| `ReclaimSpaceJob.RemainingFalls` | internal/controller/csiaddons/reclaimspacejob_controller.go:198-290 | each visit of an open job lowers the visits it has left |
| `ReclaimSpaceJob.JobFinishes` | internal/controller/csiaddons/reclaimspacejob_controller.go:106-162 | every job has a result after more visits than the backoff limit, 6 if none is given |
| `ReclaimSpaceJob.AttemptsBounded` | internal/controller/csiaddons/reclaimspacejob_controller.go:198-290 | at most one attempt more than the backoff limit (6 if none is given), none later than creation plus deadline (600 if none is given) |
| `ReclaimSpaceJob.CourseOfJob` | internal/controller/csiaddons/reclaimspacejob_controller.go:128-290 | status and attempts after any visits, by the first visit that is late, works or comes after as many others as the limit: the first visit starts the job, every later one is a retry, and that visit gives the result and the completion time |
| `ReclaimSpaceJob.FirstEnd` | internal/controller/csiaddons/reclaimspacejob_controller.go:128-162 | every sequence of visits has a first one that ends the job, or none, so the course is known for all of them |
| `ReclaimSpaceJob.NoClaimFails` | internal/controller/csiaddons/reclaimspacejob_controller.go:113-126 | without a claim the first visit fails the job for good and nothing is attempted |
| `ReclaimSpaceCron.ParseJobList` | internal/controller/csiaddons/reclaimspacecronjob_controller.go:295-338 | an active child if there is one, the finished ones by result, the latest tick and the latest success |
| `ReclaimSpaceCron.DeleteOldJobs` | internal/controller/csiaddons/reclaimspacecronjob_controller.go:253-281 | the children deleted are the oldest in the order of the sort, beyond the limit |
| `ReclaimSpaceCron.CountWithResult` | internal/controller/csiaddons/reclaimspacecronjob_controller.go:303-310 | the finished children are split by result, each as often as it is listed |
| `ReclaimSpaceCron.OldCount` | internal/controller/csiaddons/reclaimspacecronjob_controller.go:266-270 | exactly the children over the limit are deleted |
| `ReclaimSpaceCron.OldStartFirst` | internal/controller/csiaddons/reclaimspacecronjob_controller.go:259-270 | none that is deleted started after one that is kept |
| `ReclaimSpaceCron.SortSorts` | internal/controller/csiaddons/reclaimspacecronjob_controller.go:259-264 | the sort orders by start time, jobs without one first |
| `ReclaimSpaceCron.NewestKept` | internal/controller/csiaddons/reclaimspacecronjob_controller.go:253-281 | with a limit of at least one, pruning never deletes the job that started last |
| `ReclaimSpaceCron.FindDue` | internal/controller/csiaddons/reclaimspacecronjob_controller.go:131-159 | over the same set of missed ticks, spelled out: a tick is due exactly if there are 1 to 100 of them and the greatest can still start in time, and it is that one |
| `ReclaimSpaceCron.Controller.Reconcile` | internal/controller/csiaddons/reclaimspacecronjob_controller.go:92-190 | one cron reconcile, on a cached list that may lack children, is the cron step of the composed machine; it proceeds exactly if not suspended, no listed child is active and a tick is due |
| `ReclaimSpaceCron.InvStep` | internal/controller/csiaddons/reclaimspacecronjob_controller.go:99-190 | every cron or job step keeps the children ordered, at most the last one active, and the last started tick among them |
| `ReclaimSpaceCron.TicksStartOnce` | internal/controller/csiaddons/reclaimspacecronjob_controller.go:99-190 | in every run with complete lists in any order, some history and named claims, each created job's tick exceeds all earlier ones, at most one child is active, and completion times can be dereferenced |
| `ReclaimSpaceCron.HistoryLimits` | internal/controller/csiaddons/reclaimspacecronjob_controller.go:124-127 | in every such run, a reconcile whose deletes succeed leaves exactly as many successful and failed children as there were, cut to the limits, and loses no open one |
| `ReclaimSpaceCron.CronStarts` | internal/controller/csiaddons/reclaimspacecronjob_controller.go:129-190 | a reconcile creates a job only for the missed tick it proceeds with, not suspended and with no listed child active, and the job has that tick and the spec |
| `ReclaimSpaceCron.CronLeavesJob` | internal/controller/csiaddons/reclaimspacecronjob_controller.go:175-190 | and it then leaves a job for that tick |
| `ReclaimSpaceRuns.HistoryCondition` | internal/controller/csiaddons/reclaimspacecronjob_controller.go:91-127 | the same for all runs, if and only if neither history limit is ever 0, lists show all children, and every job names a claim |
| `ReclaimSpaceRuns.ForgottenTickRuns` | internal/controller/csiaddons/reclaimspacecronjob_controller.go:101-105 | with either limit 0 a run prunes its finished job, successful or failed, and starts the tick again |
| `ReclaimSpaceRuns.HiddenJobRuns` | internal/controller/csiaddons/reclaimspacecronjob_controller.go:91-96 | with a list that lacks the active child the next tick starts beside it |
| `ReclaimSpaceRuns.LostRuns` | internal/controller/csiaddons/reclaimspacecronjob_controller.go:259-270 | for every history limit, jobs that fail validation before they have a start time lead to a list whose newest one is pruned and started again |
| `ConditionReporter.Reporter.IsUpdatedVolumeCondition` | sidecar/internal/volume-condition/reporter.go:148-158 | updated exactly if the cached condition differs or is missing, and then cached |
| `ConditionReporter.Reporter.PruneConditionCache` | sidecar/internal/volume-condition/reporter.go:163-171 | the cache keys become the listed IDs, each keeping its condition |
| `ConditionReporter.Reporter.Tick` | sidecar/internal/volume-condition/reporter.go:108-141 | one tick reports in line with everything observed so far and only adds reports; on the list itself: for every listed volume of the driver with an answer, its last report is the answer of its last such entry, and every new report is the answer of an entry |
| `ConditionReporter.ObservedInOrder` | sidecar/internal/volume-condition/reporter.go:114-137 | the observations of a list are, position by position and in order, all its entries with this driver and an answer, and no others |
| `ConditionReporter.HistoryByTicks` | sidecar/internal/volume-condition/reporter.go:108-141 | the history of a run is that of its ticks one after the other, each with the observations of its list |
| `ConditionReporter.Reporter.Run` | sidecar/internal/volume-condition/reporter.go:102-144 | over any run the reports of every volume are its observations with consecutive repeats removed, anew after each list that lacks it; the last report of every volume answered in the last list is that answer; the keys are the IDs listed last; it fails exactly at an invalid interval or a failed listing |
| `ConditionReporter.LatestIsReported` | sidecar/internal/volume-condition/reporter.go:148-158 | the last report of a volume is the condition it was last seen in |
| `ConditionReporter.ReportsDiffer` | sidecar/internal/volume-condition/reporter.go:99-101 | consecutive reports differ while no list lacks the volume |
| `ConnectionPool.Connection.Connect` | internal/connection/connection.go:65-118 | a live client is reused, otherwise a new one with capabilities fetched through it, or no client at all |
| `ConnectionPool.Connection.Close` | internal/connection/connection.go:146-158 | the client is shut down and dropped |
| `ConnectionPool.NewConnection` | internal/connection/connection.go:122-141 | a connected connection, or none |
| `ConnectionPool.Pool.Put` | internal/connection/connection_pool.go:54-67 | the pool stays the last un-deleted Put per key, and replaced connections have no client |
| `ConnectionPool.Pool.Delete` | internal/connection/connection_pool.go:70-83 | the same for a deletion |
| `ConnectionPool.MirrorsStep` | internal/connection/connection_pool.go:54-83 | each operation keeps the map in line with the last operation on each key |
| `ConnectionPool.Pool.GetByDriverName` | internal/connection/connection_pool.go:87-100 | in any map order, and amid other lookups under the read lock, exactly the driver's connections, each with a live client through which its capabilities were fetched; fails exactly if one is down and cannot be dialled |
| `ConnectionPool.Pool.GetByNodeID` | internal/connection/connection_pool.go:103-126 | the same restricted to the node if one is given; it still fails for an unreachable connection on another node |
| `Decimal.ValueOfPrint` | internal/controller/csiaddons/csiaddonsnode_controller.go:500-500 | reading a printed number gives it back |
| `Decimal.PrintOfValue` | sidecar/internal/util/util.go:76-87 | printing what was read gives the text back exactly if it has no leading zeros |
| `Endpoint.SplitJoined` | internal/controller/csiaddons/csiaddonsnode_controller.go:393-405 | splitting at the last dot undoes joining exactly for two non-empty names of which the second has no dot |
| `Endpoint.BuiltText` | sidecar/internal/util/util.go:55-87 | the sidecar refuses two empty names and every text that is no 16-bit port, and otherwise builds pod://pod.namespace:port, or pod://pod:port without a namespace |
| `Endpoint.ParsedIsSane` | internal/controller/csiaddons/csiaddonsnode_controller.go:382-405 | whatever the manager accepts starts with pod:// in any case of letters, and has a non-empty pod, a non-empty namespace without a dot and a port of digits |
| `Endpoint.EndpointRoundTrip` | sidecar/internal/util/util.go:55-87 | what the manager parses out of the sidecar's URL is namespace, pod and canonical port, if and only if the port is accepted, both names are non-empty and the namespace has no dot |
| `Endpoint.WithoutNamespace` | sidecar/internal/util/util.go:69-76 | an endpoint built without a namespace is accepted exactly if the pod has an inner last dot, and then its end is read as the namespace |
| `Endpoint.PortRoundTrip` | sidecar/internal/util/util.go:80-87 | the port read back is an accepted port and the same number |
| `RetryBackoff.ReasonRoundTrip` | internal/controller/csiaddons/csiaddonsnode_controller.go:444-463 | the counter parsed out of the status text is the one printed, if and only if it fits a 64-bit integer; otherwise parsing fails |
| `RetryBackoff.ReasonText` | internal/controller/csiaddons/csiaddonsnode_controller.go:500-500 | the text is currentAttempt, a colon, a space and the number |
| `RetryBackoff.CsiAddonsNode.BackoffAndRetry` | internal/controller/csiaddons/csiaddonsnode_controller.go:467-513 | in every reachable state the reason encodes the failures recorded since the last connection, the parse error is never returned, and the outcome is the backoff or deletion due |
| `RetryBackoff.CsiAddonsNode.Succeed` | internal/controller/csiaddons/csiaddonsnode_controller.go:174-184 | a recorded connection clears the counter and the reason text |
| `RetryBackoff.DelaysDouble` | internal/controller/csiaddons/csiaddonsnode_controller.go:482-512 | failures in a row are retried after 1, 2 and 4 times the base delay, and the fourth deletes the object |
| `RetryBackoff.NoFailures` | internal/controller/csiaddons/csiaddonsnode_controller.go:174-184 | the count is zero exactly if each recorded failure is followed by a recorded connection |
| `FenceClasses.RemoveClassFromList` | internal/controller/csiaddons/networkfenceclass_controller.go:273-282 | the list without the first match |
| `FenceClasses.RemovalIsComplete` | internal/controller/csiaddons/networkfenceclass_controller.go:273-282 | nothing of the name is left exactly if it was listed at most once |
| `FenceClasses.Cluster.ProcessCSIAddonsNode` | internal/controller/csiaddons/networkfenceclass_controller.go:207-270 | on the fields: it is an error exactly if the node has no capabilities, its annotation does not parse, or a needed update is refused or stale; without an error a live class is added at the end, one copy of a deleted class is taken off and an emptied annotation removed, and only where the node can report clients to fence |
| `FenceClasses.Cluster.Reconcile` | internal/controller/csiaddons/networkfenceclass_controller.go:79-139 | one reconcile with any list order, stale list and refused updates is the step of the run model |
| `FenceClasses.ReconcileTouches` | internal/controller/csiaddons/networkfenceclass_controller.go:98-139 | a reconcile changes only listed, live nodes of the driver that were read up to date, and no other class; a live class gets its finalizer before any node is changed |
| `FenceClasses.RunKeepsDistinct` | internal/controller/csiaddons/networkfenceclass_controller.go:229-265 | in every run no node lists a class twice |
| `FenceClasses.ListedAfter` | internal/controller/csiaddons/networkfenceclass_controller.go:227-265 | on an up-to-date node of the driver that reports clients to fence the class is listed if and only if it is not being deleted |
| `FenceClasses.OthersKept` | internal/controller/csiaddons/networkfenceclass_controller.go:227-282 | no reconcile changes which other classes a node lists |
| `FenceClasses.FinalizerCondition` | internal/controller/csiaddons/networkfenceclass_controller.go:110-139 | after any run a deleted class is let go exactly if its update succeeds and every listed live node of its driver has capabilities and a readable annotation, and either lacks its name or could be updated; it is then off every live node of its driver that reports clients to fence, if and only if the nodes bearing it were read up to date |
| `FenceClasses.StaleListLeavesName` | internal/controller/csiaddons/networkfenceclass_controller.go:110-139 | a run with a stale list in which the class goes and a node keeps its name |

## Left out

- The three group controllers are steps on values, one per API write or RPC, rather than methods on objects, because their writes interleave; slices and maps they edit in memory between two writes are not modelled as aliased objects.
- Encryption-key-rotation cron jobs and jobs: the same scheduler and job machines as reclaim-space.
- PVC and storage-class controllers that create and update one child from annotations: lookups that would only add easy members.
- The Replace concurrency policy and nil history limits: the source deletes or dereferences through possibly nil pointers there.
- Cron syntax, durations, RFC 3339 text and the zero time a schedule without a next tick returns: a schedule is any function giving the least tick after a time.
- ReclaimSpaceCron.Controller.Reconcile: a stale list may lack children, but shows those it has as they are; a failed status write is a reconcile that did not happen.
- Selecting PVCs by label, collecting volume handles and the membership of a volume group (volumegroupreplication_controller.go:521-601): the selection is an input.
- The VR controller on a PVC source, and several VRs on one source: the group protocol has one VR; exclusivity between VRs is not claimed.
- GroupDeletion.DeletionCondition: assumes that the VR controller's reads show its own writes, and that nobody else writes to the VGR, or to the VR and the content once these are marked; without the first a guard can be orphaned.
- PvcOwnership.UpdatePvcs: PVCs in the cache still exist, and a compare-and-swap succeeds if the copy equals the current object.
- ReclaimSpaceJob.Job.Reconcile: every visit stores its status; a visit whose status write fails is a visit that did not happen.
- RetryBackoff.CsiAddonsNode.BackoffAndRetry: reads the current reason, not a cached one.
- An administrator's content is taken to carry a handle from the start, and its reference to the VGR is not checked.
- VolumeReplication.Instance.Reconcile: does not model requeue delays and the synchronisation times copied into the status.
- Message texts are enumerated by what they say, with their free parts; wording is not modelled.
- Endpoint.EndpointRoundTrip: the branch with an IP address, percent escapes and bracketed hosts are not modelled; names are any text a host holds literally without a colon or bracket.
- Unit and size of the base retry delay: delays are multiples of it.
- The lookup of the leading sidecar in the connection pool.
- FenceClasses.Cluster.Reconcile: reads the class object itself up to date, with valid parameters; only the list of nodes may be stale.
- gRPC, TLS, tokens, events, logging, the CLI, generated code, reclaimed-space arithmetic.
