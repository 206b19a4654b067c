# Verified model of the Tencent Cloud CSI drivers

This project models the parts of the CSI drivers that have to stay right over whole runs, with operations
failing and calls interleaving, and proves what they guarantee. `dafny verify dfyconfig.toml` checks all of it.

The cloud, the mount table, the files and the Kubernetes API are environments with explicit rules: each
operation is answered by the environment, and any answer may be a failure. State machines are total functions
`Next(state, event)`; an event that is not enabled changes nothing, so a run is any sequence of events, and the
theorems quantify over all of them. Code that the drivers run step by step in place is a class or a method with
loops, proved equal to the function that the theorems are about.

| file | what it models |
|---|---|
| `Strings.dfy` | `strings.Split`, `Join`, `ReplaceAll`, `Contains`, `HasPrefix` and the laws of splitting and joining |
| `MountKey.dfy` | the key `fsid` or `fsid-root-dir` under which CFS Turbo volumes share a global mount |
| `GlobalMount.dfy` | CFS Turbo stage and unstage calls as threads over lock set, mount table and list files, with the invariant of every run |
| `GlobalMountRuns.dfy` | the guarantees of every run, and for each the class of failures it needs to be spared |
| `GlobalMountServer.dfy` | the same calls as the driver's imperative code; each call that runs alone is proved to be a run of the model |
| `GlobalMountFindings.dfy` | whose directory a staged volume gets, and runs in which the excluded failures and overlaps do harm |
| `CfsVolumes.dfy` | CFS Turbo CreateVolume and DeleteVolume: the volume id and its parser, the temporary mount, the directory |
| `Counting.dfy` | sums over threads, used by the two fan-outs |
| `Folds.dfy` | when the order of a loop's elements does not matter |
| `Tags.dfy` | the tag diff, a synchronisation round, convergence over partly failed rounds with changing cluster tags |
| `TagPool.dfy` | the worker pool of a round, with the unlocked error counter read and written in two steps |
| `FanOut.dfy` | the controller's goroutine-per-disk fan-out with wait group and response channel, in every run |
| `CbsDisks.dfy` | publish, unpublish and expand of CBS volumes over the cloud's asynchronous disks |
| `Capacity.dfy` | int64 and uint64 arithmetic on sizes |
| `DiskIds.dfy` | the comma-joined CBS volume id and the LVM decisions taken from it |
| `Snapshots.dfy` | CreateSnapshot and DeleteSnapshot over cloud, cache and persistent store, with panics and restarts |
| `SnapshotLoad.dfy` | the start-up load of the cache, with records on the heap so that sharing shows |
| `Parameters.dfy` | the CBS CreateVolume parameter loop under every map iteration order |

Assumptions about the environment, all stated in the model:

- A write of a list file, of the tag file or of a ConfigMap happens or fails unchanged.
- One call is in flight per volume (CSI specification, section "Concurrency") where a theorem says
  `OneInFlight`, and throughout `CbsDisks.dfy`. A volume id always comes with the same volume context.
- Cloud requests are carried out before they are answered or not at all, but an error may be reported for a
  request that was carried out. Only an unattached disk can be attached, only an attached one detached, only an
  idle one expanded, and only to a larger size; a disk belongs to one volume. Snapshot ids are never reused. A
  description of a disk or a snapshot shows its state, but may be empty for one that exists.
- Nothing but the drivers mounts below the global path, attaches disks or changes snapshots.
- `CleanupMountPoint` of `k8s.io/utils/mount` (vendor/k8s.io/utils/mount/mount_helper_common.go:30-102) has one of
  four answers: done, failed, unmounted and then failed, or, when the status of the path cannot be read, success
  without doing anything. A mount or unmount command may fail after it has done its work. A mounted path is
  recognised as a mount point.
- The mounts and the list files below `/etc/cfsturbo/global` do not get into each other's way: keys are single path
  components other than `config`, the directory of the lists (`KeyIsPlainIff` says which volume contexts give such keys).
- A file system id names one file system, whichever host and protocol it is mounted by, wherever a statement speaks of
  the directory that a volume asked for; `ServedIffNoCollision` holds for every notion of what it asked for.
- `filepath.Walk` of Go's standard library lists the directory, then takes the status of each file before its
  callback reads it. It calls the callback with an error that the driver's callback ignores when the directory
  cannot be read, and with a nil file info, which the callback dereferences, when a status call fails.
- For the tags, a disk counts as created once its persistent volume can be listed.

Findings where the code does less than it seems to, each with its exact condition:

- A lookup by NodeUnstageVolume that meets a list file which another call has deleted since the listing kills the
  driver, with every call in flight. So even without any failed operation mount table and lists agree exactly as long
  as the driver does not die with a call halfway (`MountedIffListed`, `OverlapLeavesMount`); it is enough that no list
  is deleted while a lookup reads the lists (`UndisturbedStaysMatched`).
- A driver restart, or a failed read or write of the list, right after a mount, or a mount that is made and reported as
  failed, leaves a mount that no volume is listed for, and so does a last unstage whose clean-up cannot read the status
  of the mounted path: it deletes the list and reports success (`SkippedCleanupLeavesMount`). A clean-up that fails
  halfway, a list file that cannot be deleted, or a reboot leaves volumes listed without their mount
  (`MountedImpliesListed`, `ListedImpliesMounted`, `FailedAddLeavesMount`, `FailedCleanupLosesMount`).
- An unstage that loses a race for its list leaves an empty list file behind (`RacedUnstageLeavesEmptyList`).
- A list directory that cannot be read looks empty, and NodeUnstageVolume then reports success for a volume that stays
  listed and mounted (`UnreadableDirectoryHidesVolumes`).
- Global mount keys of different directories can collide, and then the volume staged second gets the directory of the
  first; and volumes of one directory share a mount whatever hosts and protocols they ask for (`ServedIffNoCollision`,
  `CollideIff`, `DashesCollide`). A file system id `config` has its volumes mounted over the lists, and one with a slash
  leaves the list directory (`KeyIsPlainIff`).
- CreateVolume only logs a failed query of the cluster's tags. A disk created then lacks the tags that were saved
  before, and later rounds do not add them (`TagsConverge`, `UnqueriedDiskStaysBehind`).
- A tag change between a partly failed round and the next successful one can leave outdated tags for good
  (`ChangingTagsConverge`).
- The start-up load caches one shared record for all snapshots (`RestartRebuildsCacheIff`).
- CreateSnapshot panics on an empty description of a new snapshot (`EmptyDescriptionPanics`), and is idempotent by name
  only once it has succeeded; before that exactly the failures between the cloud's create and the cache leave a
  snapshot that nothing records and that a retry doubles, and deleting it by id then reports success (`RetryLeaksIff`).
- A create that is repeated because the store write failed, and whose description is empty, succeeds without storing the
  snapshot; deleting it then reports success and leaves it (`SnapshotsSurviveRestarts`, `OverlookedSnapshotStays`).
- After a delete whose answer from the cloud was lost, a create for the name reports the snapshot that is gone
  (`CreateIsTruthfulIff`, `LostDeleteThenCreate`).
- Unpublish takes an empty description for a detached disk (`UnpublishIsTruthful`, `HiddenDiskIsReportedDetached`).
- Expand polls for the end of EXPANDING and not for the size (`AbandonedExpansionIsReportedDone`), its reported
  capacity wraps above 2^63 - 2^30 bytes (`ReportedCapacity`), and CreateVolume reports more than the disk holds
  unless the request is a whole number of gibibytes (`CreateCoversIffWholeGiB`).
- A create response with more disks than `devices` asked for is accepted, and the volume's first stage then fails its
  count check (`RestageAgreesWithCreate`).
- CreateVolume's settings depend on map order exactly when no `devices` value is rejected and two keys do not commute
  (`OrderIndependentIff`), as a PREPAID pay mode and a dedicated cluster id do not (`CdcAndPayModeConflict`).
- A CFS Turbo id whose file system id or host contains a dash does not read back (`CfsVolumes.VolumeIdRoundTrip`),
  and a leftover mount of another file system at the temporary path takes the new directory
  (`LeftoverMountTakesTheDirectory`).

## Model

| member | source | states |
|---|---|---|
| `GlobalMountRuns.StagedVolumesStayMounted` | driver/cfsturbo/node.go:82-254 | in every interleaving with any operation failing, restarts, panics and reboots, and one call in flight per volume: a volume whose stage succeeded and whose unstage has not begun is listed under its key, and mounted unless the node rebooted since |
| `GlobalMountRuns.MembershipStable` | driver/cfsturbo/config.go:104-157 | no step of another volume's call, the death of the driver included, changes whether a volume is listed |
| `GlobalMountRuns.MountsStable` | driver/cfsturbo/node.go:231-245 | another volume's call never takes away the mount of a listed volume |
| `GlobalMountRuns.UnstageSuccessIsTruthful` | driver/cfsturbo/node.go:216-254 | in every run with one call in flight per volume in which no lookup of a listed volume finds the directory unreadable: at every point of the unlocked lookup a listed volume's file is still to be read or was read with the volume in it, and a volume whose unstage has reported success and whose stage has not begun since is on no list |
| `GlobalMountRuns.FaultlessCallsSucceed` | driver/cfsturbo/node.go:131-254 | in every run without failed operations every call that got its lock returns success, but for a stage with an unknown protocol |
| `GlobalMountFindings.UnreadableDirectoryHidesVolumes` | driver/cfsturbo/config.go:131-157 | for every answer: a failed lookup makes the unstage fail and changes nothing; an unstage that reports success leaves its volume on no list exactly when the list directory was not unreadable or the volume was on no list before; with an unreadable directory it succeeds and changes nothing |
| `GlobalMountFindings.RacedUnstageLeavesEmptyList` | driver/cfsturbo/config.go:159-186 | an unstage whose volume went off the list after the lookup touches no mount and no other list, and leaves an empty list where it was deleted |
| `GlobalMountFindings.MountIsWhatWasAskedFor` | driver/cfsturbo/node.go:126-166 | in every run, with dash-free file system ids, the global path of a valid volume's key holds the file system it asked for, at its root directory up to reading slashes as dashes, and exactly at it if root directories are dash-free too |
| `GlobalMountFindings.ServedIffNoCollision` | driver/cfsturbo/node.go:126-207 | in every run with one call in flight per volume every volume staged since the last boot has what it asked for at its path, if and only if no two volumes that can be staged share a key and ask for different things; for every notion of different, be it the directory alone or also host and protocol |
| `GlobalMountFindings.SecondOverFirstMount` | driver/cfsturbo/node.go:169-188 | for any two colliding volumes a run without failures after which both are staged and the second has the mount of the first |
| `GlobalMountFindings.CollideIff` | driver/cfsturbo/node.go:126-129 | with dash-free file system ids two volumes collide over their directories exactly for one file system and two non-default directories that differ only in slashes and dashes; over their mounts also for one directory with different hosts or protocols |
| `GlobalMountRuns.LocksAreHeldByOneCall` | driver/util/idlocker.go:42-56 | in every run the lock set is exactly the keys of the calls past their acquire, one call per key, so a failed acquire releases nothing; and lists never get duplicates |
| `GlobalMountRuns.MountedImpliesListed` | driver/cfsturbo/node.go:166-253 | in every interleaving, even for one volume: a mounted key whose lock is free has a non-empty list, as long as no mount that was made is reported as failed, no list read or write fails and the driver does not die right after a call's own mount, and no clean-up of a mounted key is skipped |
| `GlobalMountRuns.ListedImpliesMounted` | driver/cfsturbo/node.go:226-253 | the converse, as long as no clean-up stops halfway, no list deletion fails, the driver does not die between the two, and the node does not reboot |
| `GlobalMountRuns.MountedIffListed` | driver/cfsturbo/config.go:131-134 | in every run without failed operations: at every moment every key whose lock is free is mounted exactly when its list exists and is non-empty, if and only if the driver never dies, by restart or by a lookup that meets a deleted list, with a call halfway |
| `GlobalMountRuns.UndisturbedStaysMatched` | driver/cfsturbo/config.go:121-191 | without failures and restarts it is enough that no list is deleted while a lookup reads the lists |
| `GlobalMountFindings.OverlapLeavesMount` | driver/cfsturbo/config.go:131-134 | a run from the start with one call in flight per volume and no failed operation in which a lookup meets a deleted list and another call leaves its key mounted with nobody listed |
| `GlobalMount.RunInv` | driver/cfsturbo/node.go:131-254 | the invariant of locks, lists, mounts and of what every call relies on at each of its steps holds in every run |
| `GlobalMount.RemovedMembers` | driver/cfsturbo/config.go:173-179 | cutting the first occurrence out of a duplicate-free list removes the volume and keeps every other |
| `GlobalMountServer.StageCallIsARun` | driver/cfsturbo/node.go:82-208 | a stage call that runs alone, with any answers, is a run of the thread model with the same effect and the same success |
| `GlobalMountServer.UnstageCallIsARun` | driver/cfsturbo/node.go:210-254 | an unstage call that runs alone, with any answers and any order of reading the files, is a run of the thread model with the same effect and the same success |
| `GlobalMountServer.StageThenUnstage` | driver/cfsturbo/node.go:82-254 | without failures staging succeeds exactly for contexts with an absolute root directory, a file system id, a host and protocol nfs or lustre, and appends the volume; unstaging always succeeds, and the two together restore list and mounts |
| `GlobalMountFindings.FailedAddLeavesMount` | driver/cfsturbo/node.go:190-205 | a stage of an unused key leaves it mounted with nobody listed exactly when the mount was made and reported as failed, or its list cannot be read or written after it |
| `GlobalMountFindings.FailedCleanupLosesMount` | driver/cfsturbo/node.go:241-251 | the last unstage leaves the volume listed without a mount exactly when the clean-up stops halfway or the list deletion fails after it, and a mount with nobody listed, reporting success, exactly when the clean-up is skipped and the list deleted; staging again repairs either |
| `GlobalMountFindings.SkippedCleanupLeavesMount` | driver/cfsturbo/node.go:241-253 | a run from the start in which an unstage reports success and leaves its key mounted with nobody listed |
| `GlobalMountFindings.RestartLeavesMount` | driver/cfsturbo/node.go:190-205 | a run from the start in which a restart breaks mounted-implies-listed |
| `GlobalMountFindings.RebootLosesMount` | driver/cfsturbo/node.go:201-207 | a run from the start in which a reboot breaks listed-implies-mounted |
| `GlobalMountServer.NodeServer.TryAcquire` | driver/util/idlocker.go:42-50 | acquires exactly when the key was free; on failure the lock set is unchanged |
| `GlobalMountServer.NodeServer.Release` | driver/util/idlocker.go:52-56 | takes exactly the given key out of the lock set |
| `GlobalMountServer.NodeServer.GetList` | driver/cfsturbo/config.go:35-66 | returns a key's list, creating an empty file for a missing one, and changes nothing when it fails |
| `GlobalMountServer.NodeServer.AddVolumeId` | driver/cfsturbo/config.go:68-102 | appends the volume once, with the file states that each failing operation leaves |
| `GlobalMountServer.NodeServer.LoadLists` | driver/cfsturbo/config.go:121-157 | loads every list file unchanged, in any order |
| `GlobalMountServer.NodeServer.FindKey` | driver/cfsturbo/config.go:104-119 | finds a key whose list has the volume, or reports that no list has it |
| `GlobalMountServer.NodeServer.DeleteVolumeId` | driver/cfsturbo/config.go:159-186 | asks for an unmount exactly when the volume is the only one listed, and otherwise cuts it out of the list |
| `GlobalMountServer.NodeServer.NodeStageVolume` | driver/cfsturbo/node.go:82-208 | the whole call equals the specification that StageCallIsARun ties to the thread model |
| `GlobalMountServer.NodeServer.DropVolume` | driver/cfsturbo/node.go:226-253 | the part that holds the lock, for every state of the list |
| `GlobalMountServer.NodeServer.NodeUnstageVolume` | driver/cfsturbo/node.go:210-254 | the whole call equals the specification that UnstageCallIsARun ties to the thread model |
| `MountKey.KeySpelledOut` | driver/cfsturbo/node.go:126-129 | the key is the file system id for `/cfs`, and else the id followed by the root directory with dashes for slashes |
| `MountKey.KeyInjective` | driver/cfsturbo/node.go:126-129 | the key determines file system id and root directory when neither contains a dash and the directory starts with a slash |
| `MountKey.KeyCollisions` | driver/cfsturbo/node.go:304-307 | with dash-free ids two keys are equal exactly when the ids are, and the directories are up to reading slashes as dashes |
| `MountKey.DashesCollide` | driver/cfsturbo/node.go:126-129 | different directories with a dash in either part that share a key |
| `MountKey.KeyIsPlainIff` | driver/cfsturbo/config.go:14-26 | the exact volume contexts whose key is a path component of its own and not the directory of the lists |
| `CfsVolumes.VolumeIdRoundTrip` | driver/cfsturbo/controller.go:192-202 | the exact inputs on which the parser returns what the printer was given; dashes in cluster id and name are harmless |
| `CfsVolumes.ParsePanicsIff` | driver/cfsturbo/controller.go:192-202 | the exact ids on which the parser indexes past the path |
| `CfsVolumes.CreatedVolumeCanBeDeleted` | driver/cfsturbo/controller.go:43-143 | once a create has returned an id, after any calls before and any calls for other volumes since, the directory is there and a delete of that very id whose operations succeed reports success and removes exactly it; the id is spelled out |
| `CfsVolumes.DeleteRemovesWhatCreateMade` | driver/cfsturbo/controller.go:43-143 | in every run with failures, a successful create adds and a successful delete, by the id that create returned, removes exactly the volume's own directory |
| `CfsVolumes.CreateSucceedsIff` | driver/cfsturbo/controller.go:43-105 | success exactly for complete arguments when every operation the call comes to succeeds, and then nothing stays mounted |
| `CfsVolumes.DeleteSucceedsIff` | driver/cfsturbo/controller.go:107-143 | the same for delete |
| `CfsVolumes.CallTouchesOwnDirectory` | driver/cfsturbo/controller.go:149-190 | one call touches no directory but its volume's own, leaves only its own file system mounted, and never indexes past the parsed path |
| `CfsVolumes.LeftoverMountTakesTheDirectory` | driver/cfsturbo/controller.go:165-187 | CreateVolume makes its own directory exactly when no other file system was left mounted at the temporary path |
| `CfsVolumes.ControllerServer.CreateVolume` | driver/cfsturbo/controller.go:43-105 | the whole call, with the state that each failing operation leaves behind |
| `CfsVolumes.ControllerServer.DeleteVolume` | driver/cfsturbo/controller.go:107-143 | the whole call, with the state that each failing operation leaves behind |
| `Tags.CompareTags` | driver/cbs/tags/tags.go:85-104 | the two loops compute exactly the keys to write and the keys to delete, in any iteration order |
| `Tags.DiffEmptyIffEqual` | driver/cbs/tags/tags.go:45-46 | the diff is empty exactly when the cluster's tags equal the saved ones |
| `Tags.DiffIsExact` | driver/cbs/tags/tags.go:85-104 | applying the diff to the saved tags gives the cluster's tags, and no unchanged key is touched |
| `Tags.DiffReachesTarget` | driver/cbs/tags/tags.go:197-218 | on every disk the diff is idempotent, removes what was dropped and leaves what is unrelated; it gives the target, and all of the cluster's tags, exactly to the disks that already have the cluster's unchanged tags, as those that agree with the saved or the cluster's tags do |
| `Tags.TagsConverge` | driver/cbs/tags/tags.go:29-60 | any number of partly failed rounds against the same tags, with disks created in between with any tags, then one success: saved tags equal the cluster's, every disk is without the dropped tags and has its unrelated ones untouched, and it has all cluster tags if and only if at its origin it had those that the saved tags had |
| `Tags.UnqueriedDiskStaysBehind` | driver/cbs/controller.go:388-396 | a disk created without a cluster tag that was saved before lacks it after the next successful round and for as long as the cluster tags stay |
| `Tags.FailingRoundsApply` | driver/cbs/tags/tags.go:45-57 | through failing rounds against changing cluster tags the saved tags do not move and every disk is where exactly the rounds that reached it took it |
| `Tags.ChangingTagsConverge` | driver/cbs/tags/tags.go:45-57 | when the cluster tags change between failing rounds, the next success puts a disk at its target if and only if at every key that its diff leaves alone either no round that reached the disk touched the key, and a cluster tag there was the disk's all along, or the last round that touched it wrote an unsaved tag that the disk had anyway |
| `Tags.Synchroniser.UpdateDisksTags` | driver/cbs/tags/tags.go:29-60 | the whole round over saved and disk tags; the saved tags advance only after a fully successful one |
| `TagPool.SendsNeverBlock` | driver/cbs/tags/tags.go:126-144 | in every interleaving there are five workers or one per disk, the wait group counts queued and in-hand disks and the one between Add and send, and a send finds room |
| `TagPool.NeverStuck` | driver/cbs/tags/tags.go:137-146 | until the call returns somebody can step, and while it waits on a positive count some worker can |
| `TagPool.PoolTerminates` | driver/cbs/tags/tags.go:126-153 | under any schedule the pool takes at most 7 n + 2 steps, and when none is left the call has returned |
| `TagPool.PoolIsFaithful` | driver/cbs/tags/tags.go:146-194 | when Wait has returned every disk was attempted exactly once; with lost updates the counter is non-zero exactly when a request failed, and never above the number of failures |
| `TagPool.UpdatesGetLost` | driver/cbs/tags/tags.go:180-184 | two failures can count as one |
| `TagPool.PoolRoundConverges` | driver/cbs/tags/tags.go:107-153 | end to end: a pool run under any schedule that reports no failure, after failing rounds, brings every disk to what TagsConverge says |
| `FanOut.EveryRunIsFaithful` | driver/cbs/controller.go:434-520 | for every number of disks, every interleaving and whatever the goroutines do, at every moment: sends find room, no Done comes too often or after Wait, somebody can step until the call has returned; then every goroutine has sent one response and finished, and the call succeeded exactly when all responses are nil |
| `FanOut.ReturnedMeansAllResponded` | driver/cbs/controller.go:589-609 | the part about the return for any state that keeps the balance, as the calls of CbsDisks do |
| `FanOut.SendNeverBlocks` | driver/cbs/controller.go:589-594 | a goroutine that has not sent finds a free slot in the channel |
| `FanOut.PendingPositive` | driver/cbs/controller.go:611-612 | the deferred Done never drops the counter below zero nor runs after Wait returned |
| `FanOut.NeverStuck` | driver/cbs/controller.go:712-729 | a fan-out call that has not returned can step, or waits for a goroutine that can |
| `FanOut.GoroutineInv` | driver/cbs/controller.go:852-869 | every goroutine step keeps the counts of counter, channel and errors in balance |
| `FanOut.CollectErrors` | driver/cbs/controller.go:597-603 | collects exactly the responses that are not nil, in order |
| `CbsDisks.PublishIsTruthful` | driver/cbs/controller.go:560-683 | in every interleaving, with driver restarts, publish success means every disk of the volume is attached to the requested node, though polling never looks at the instance |
| `CbsDisks.UnpublishIsTruthful` | driver/cbs/controller.go:685-804 | as long as no unpublish gets an empty description of a disk that is still held, unpublish success, also the immediate one for unsupported nodes, means no disk of the volume is attached, attaching or detaching at the node |
| `CbsDisks.LookReleasesIff` | driver/cbs/controller.go:737-759 | a look makes unpublish succeed exactly when the disk is shown released or not shown, and truthfully exactly when no held disk is hidden |
| `CbsDisks.HiddenDiskIsReportedDetached` | driver/cbs/controller.go:742-746 | a run from the start in which publish and then unpublish succeed and the disk is still attached |
| `CbsDisks.UnsupportedNodesHoldNothing` | driver/cbs/controller.go:575-577 | in every run no disk is ever at a node that the publish check rejects |
| `CbsDisks.PublishableIff` | driver/cbs/controller.go:55-57 | some run from the start publishes a volume to a node if and only if the node id is `ins-` or `eks-` and eight more characters |
| `CbsDisks.UncheckedReturnsAtOnce` | driver/cbs/controller.go:697-700 | for every other node id unpublish succeeds and publish fails at once, without touching a disk |
| `CbsDisks.DisksNeverShrink` | driver/cbs/controller.go:892-906 | no step of any run makes a disk smaller |
| `CbsDisks.ExpandIsTruthful` | driver/cbs/controller.go:830-936 | expand success means every disk holds the request; up to 2^63 - 2^30 bytes the report is in [R, R + GiB), held by every disk, and the node's check passes |
| `CbsDisks.DeliversIffServiceable` | driver/cbs/controller.go:611-936 | with a cloud that answers and completes everything a goroutine delivers success exactly for the disks its operation can serve |
| `CbsDisks.CallCanSucceed` | driver/cbs/controller.go:589-609 | from any state, whatever earlier calls left, a call for serviceable disks has a run that ends in success |
| `CbsDisks.CallCanEnd` | driver/cbs/controller.go:644-682 | in every run a call in flight can still return without help from the cloud |
| `CbsDisks.ErrorsAreReported` | driver/cbs/controller.go:614-658 | what a look decides for publish and expand, and that every error answered to a look or a request ends the work with an error, carried out or not |
| `CbsDisks.PollingOutlastsFailures` | driver/cbs/controller.go:663-682 | before the deadline polling ends, with success, exactly when some description shows the state waited for; failed and empty ones do not end it |
| `CbsDisks.AbandonedExpansionIsReportedDone` | driver/cbs/controller.go:918-930 | a run from the start whose expand call succeeds, and the disk holds the request if and only if the cloud completed the expansion |
| `CbsDisks.RunKeeps` | driver/cbs/controller.go:560-936 | what each goroutine may rely on at each point of its work holds through every step of every call and of the cloud |
| `Capacity.RoundUpSize` | driver/util/util.go:100-106 | the least number of units that holds the size, for every size and unit; truncation makes it the ceiling for negative sizes too |
| `Capacity.ExpandSize` | driver/cbs/controller.go:839-873 | the target is the least number of gibibytes that holds the request, and the report is within a gibibyte above the request exactly up to 2^63 - 2^30 bytes |
| `Capacity.RoundUpIsCeiling` | driver/util/util.go:79-83 | it is the least number of gibibytes that holds the request |
| `Capacity.ReportedCapacity` | driver/util/util.go:90-93 | the reported capacity is in [R, R + GiB) exactly up to 2^63 - 2^30 bytes, and negative above |
| `Capacity.CreateCoversIffWholeGiB` | driver/cbs/controller.go:283 | the disk that CreateVolume asks for covers the capacity it reports exactly for whole gibibytes |
| `Capacity.CheckDevices` | driver/cbs/devicemapper.go:236-241 | passes exactly when every device holds the request, else names the first that does not |
| `DiskIds.JoinDiskIds` | driver/cbs/controller.go:424-432 | the printing loop joins the ids with commas |
| `DiskIds.SplitDiskIds` | driver/cbs/controller.go:579-584 | the splitting loop keeps exactly the parts that name disks, in order |
| `DiskIds.VolumeIdRoundTrip` | driver/cbs/controller.go:528-534 | a list is read back unchanged exactly when all its entries start with `disk-` and are free of commas |
| `DiskIds.VolumeIdInjective` | driver/cbs/controller.go:424-432 | different lists of disk ids have different volume ids |
| `DiskIds.CommaMeansSeveralDisks` | driver/cbs/node.go:202-238 | the volume id contains a comma exactly for two or more disks |
| `DiskIds.RestageContextIsAccepted` | driver/cbs/node.go:530-534 | the rebuilt context is LVM with the number of disks from two on, and the only one that create accepts for that many |
| `DiskIds.RestageAgreesWithCreate` | driver/cbs/node.go:530-534 | for every accepted response, also with more disks than asked for: the re-stage rebuilds the accepted context exactly when there are no more; its own count check passes exactly when all disks are found, and that of the accepted context exactly when besides there are no more |
| `DiskIds.GetDiskSourceList` | driver/cbs/devicemapper.go:269-282 | returns the devices of the volume's disks in order, or fails if one is not found |
| `DiskIds.SourcesOnePerDisk` | driver/cbs/devicemapper.go:124-130 | it succeeds exactly when every disk is found, with one device per disk |
| `Snapshots.CreatedSnapshotsAreEverywhere` | driver/cbs/controller.go:942-1049 | in every run of one driver process with any operation failing: an id created and not being deleted is in cloud and cache, and in the store too if no create overlooked a snapshot; entries are keyed by their id, names distinct, cache and store agree |
| `Snapshots.SnapshotsSurviveRestarts` | driver/cbs/controller.go:942-1123 | in every run with panics and restarts that load stored records under any keys: an id created and not being deleted is in the cloud; and at every moment what was created is stored until deleted and out of the cloud, if and only if no create overlooks an unstored snapshot because its description is empty |
| `Snapshots.CreateOverlooksIff` | driver/cbs/controller.go:954-996 | a successful create returns a live snapshot that is not stored exactly when its name is cached and the description of the unstored snapshot is empty |
| `Snapshots.OverlookedSnapshotStays` | driver/cbs/controller.go:963-994 | a refused store write, a retry with an empty description and a delete all in a row: both succeed, and the snapshot stays in cloud and cache |
| `Snapshots.EmptyDescriptionPanics` | driver/cbs/controller.go:1006-1019 | exactly when the driver panics, and that the new snapshot is then in the cloud and recorded nowhere |
| `Snapshots.DeletedSnapshotsAreNowhere` | driver/cbs/controller.go:1051-1094 | when no create overlooked a snapshot, a successful delete of a created id, even after failed attempts, leaves it in none of the three; after panics and restarts, in neither cloud nor store |
| `Snapshots.DeleteIsTruthfulIff` | driver/cbs/controller.go:1058-1066 | whatever the answers, a successful delete leaves the id nowhere exactly if it was stored, or nowhere before |
| `Snapshots.CreateIsTruthfulIff` | driver/cbs/controller.go:954-994 | the snapshot that a successful create returns exists exactly unless its name was cached for one that is gone, which then has an unfinished deletion and is reported as not ready |
| `Snapshots.LostDeleteThenCreate` | driver/cbs/controller.go:1070-1086 | after a delete whose answer from the cloud is lost a create for the name returns the snapshot that is gone |
| `Snapshots.CreateIsIdempotent` | driver/cbs/controller.go:954-996 | after a success for a name every later success returns the same id and adds nothing to the cloud until a delete of that id begins |
| `Snapshots.CreateLeaksIff` | driver/cbs/controller.go:1000-1032 | a first create for a name leaves a snapshot that nothing records exactly when its answer is lost, or it was created and could not be described or was described empty |
| `Snapshots.RetryLeaksIff` | driver/cbs/controller.go:1000-1019 | exactly then the retry, after a restart if the driver died, makes a second snapshot, and deleting the first reports success and leaves it |
| `Snapshots.ReplyIsTruthful` | driver/cbs/controller.go:970-1048 | in every run with panics and restarts: a successful create replies what the returned snapshot was created with, its size in bytes, and ready exactly if the cloud had finished it and this call was shown it; a new one is not ready |
| `Snapshots.CreateSucceedsIff` | driver/cbs/controller.go:942-1049 | success exactly when every operation that the call comes to is answered with success |
| `Snapshots.DeleteSucceedsIff` | driver/cbs/controller.go:1051-1094 | the same for delete |
| `Snapshots.ForeignDescriptionIsIgnored` | driver/cbs/controller.go:966-995 | a snapshot described with another disk is neither stored nor ready |
| `Snapshots.CreateThenDelete` | driver/cbs/controller.go:942-1094 | without failures a create of a valid request succeeds, adds at most the snapshot it returns, and deleting that leaves no trace |
| `Snapshots.RunOk` | driver/cbs/controller.go:942-1094 | the invariant over cloud, cache, store and history holds in every run |
| `Snapshots.Controller.GetByName` | driver/cbs/cbs_utils.go:42-52 | finds an entry of that name if and only if there is one |
| `Snapshots.Controller.PutMetadata` | driver/util/k8scache.go:126-159 | stores an entry that is missing and leaves an existing one as it is, with each failing operation |
| `Snapshots.Controller.CreateSnapshot` | driver/cbs/controller.go:942-1049 | the whole call over the three stores, with the state each failing operation leaves |
| `Snapshots.Controller.DeleteSnapshot` | driver/cbs/controller.go:1051-1094 | the whole call over the three stores, with the state each failing operation leaves |
| `SnapshotLoad.MatchesIff` | driver/cbs/controller.go:1116 | entries are loaded whose name contains `snap-` anywhere |
| `SnapshotLoad.LoadShared` | driver/cbs/controller.go:1113-1123 | as written, every cached entry shows the entry that was decoded last |
| `SnapshotLoad.LoadFresh` | driver/util/k8scache.go:99-123 | with a record per entry the cache shows exactly the matching stored entries |
| `SnapshotLoad.SharedLoadAgreesIff` | driver/cbs/controller.go:1113-1123 | the shared record gives the right cache, and entries keyed by their own id, exactly when at most one entry matches |
| `SnapshotLoad.RestartRebuildsCacheIff` | driver/cbs/controller.go:1111-1123 | the same for the store that any run of the driver leaves behind, earlier panics and restarts included |
| `Parameters.ParseParameters` | driver/cbs/controller.go:175-228 | the loop, in whatever order it runs, computes the fold of its turns over that order |
| `Parameters.OrderIndependentIff` | driver/cbs/controller.go:175-228 | all orders have the same outcome if and only if some devices value is not positive or the values of any two keys commute |
| `Parameters.WritesCommuteIff` | driver/cbs/controller.go:176-227 | two writes have the same outcome in both orders, whatever the settings, exactly when their values commute |
| `Parameters.SameVerdict` | driver/cbs/controller.go:230-240 | keys without a common field commute; CreateVolume accepts exactly LVM with two devices or more and no mapper with one; and when all orders agree the verdict is the same |
| `Parameters.RejectedIffBadDevices` | driver/cbs/controller.go:218-225 | in any order, conflicts or not, the loop rejects exactly when some devices value is not positive |
| `Parameters.KeysMeanWhatTheySay` | driver/cbs/controller.go:175-228 | without conflicts every key, by its literal name in any case, decides the setting of that name |
| `Parameters.AbsentKeysMeanDefaults` | driver/cbs/controller.go:161-174 | what no key names has its literal default: type, zone, charge type, renewal, period, policy |
| `Parameters.MoreAbsentKeysMeanDefaults` | driver/cbs/controller.go:161-174 | the same for project, tags, throughput, cluster id, mapper, devices |
| `Parameters.LastPartSetsTag` | driver/cbs/controller.go:200-207 | a tag has a value exactly when the last part that sets it gives it, or none sets it and it had it; parts without exactly one colon are ignored |
| `Parameters.SettingsReflectParameters` | driver/cbs/controller.go:175-228 | without conflicts every key's value is in force in the final settings |
| `Parameters.UntouchedFieldsStay` | driver/cbs/controller.go:167-174 | a field that no key writes keeps its default |
| `Parameters.CdcAndPayModeConflict` | driver/cbs/controller.go:183-215 | among whatever other parameters a pay mode and a dedicated cluster id commute exactly when the pay mode is not PREPAID; when it is and nothing is rejected, two orders charge the disk differently |

## Left out

- gRPC servers, metrics, credentials, the SDK, and the `chdfs`, `cosfs` and `cfs` drivers: plumbing without whole-run properties.
- Real time: tickers and deadlines are polls and timeouts that may come at any moment; no bounds in seconds are claimed.
- Shell commands, device symlinks, formatting and resizing of file systems: their results are answers of the environment.
- JSON and the file system below the list files: persisted values are lists and maps, and a write is atomic.
- Bind mounts of NodePublishVolume, the unmount loops, the clean-up of old staging paths and the in-flight guard of CBS staging: short loops and set operations that would only add easy members.
- The loops that fill CFS Turbo options from the volume context: options come with their defaults filled in.
- Zone picking and disk type validation in CreateVolume: selections with no property across calls.
- CBS CreateVolume and DeleteVolume take part in `CbsDisks.dfy` as single events that add an unattached disk and remove unattached ones.
- The goroutine of CreateVolume that polls for a new disk: `FanOut.dfy` covers its fan-out, its polling has no further promise.
- The status call for the list directory itself at the start of a lookup's walk: its failure would kill the driver too, which a restart at that moment covers.
- Tag requests for LVM volumes name the joined volume id as one resource; whether the cloud accepts it is an answer of the environment.
- Snapshots.CreateIsIdempotent: a later CreateSnapshot for the name with another source volume also returns the first snapshot, because the code compares names only.
- Snapshots.CreatedSnapshotsAreEverywhere: runs of one driver process and with serial calls, because the cache is volatile; Snapshots.SnapshotsSurviveRestarts says what restarts and panics leave, and SnapshotLoad what a restart rebuilds.
