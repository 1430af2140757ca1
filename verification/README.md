# A verified model of the FlashArray volume driver

The driver attaches FlashArray volumes to one node, mounts them for containers and lets go of them
again. The array numbers what it connects to a host, and hands a freed LUN number to the next volume;
Linux reads a path's identity once, when it scans the path. A path that outlives its connection
therefore goes on claiming the old volume while its I/O reaches the new one. Most rules in the driver
exist so that this never happens. This project models those rules and proves what they achieve.

| file | what it holds |
|---|---|
| `World.dfy` | the node and the array as one state: LUN map, kernel paths with the identity read at scan time, multipathd's records and maps, udev; every operation on them may fail, and other nodes may disconnect this host at any moment |
| `Membership.dfy` | which map and which record a path belongs to, and how the driver puts it right |
| `Iscsi.dfy` | `Sweep`, `Detach`, `forgetDeleted`, device lookup and `CheckLUN` over that state |
| `Attach.dfy` | `connectSwept`, rollback and release, leftovers, path checks, and the device half of `Mount` |
| `Runs.dfy` | whole runs of these sections among rescans, other nodes, udev and multipathd |
| `TakeOver.dfy` | the preempt grace and the timing rule that keeps lingering volumes clear of it |
| `Lifecycle.dfy`, `Mounts.dfy` | refs, linger timers and kept attachments: as values with their runs, and as the driver's own mutable objects, each method shown to do what the values say |
| `Locks.dfy`, `Operations.dfy` | lock order, deadlock freedom of any number of operations, and the locks each operation takes on every path |
| `Retry.dfy` | the retry loop of every array request |
| `HostLuns.dfy` | the paged and chunked join that yields the LUN map |
| `Adopt.dfy` | name tags, adoption, dry run against real run |
| `Known.dfy` | the known-volume file in memory and on disk, `Get` and `List` |
| `Identity.dfy` | the string tests on WWIDs behind the identities of `World.dfy` |

Methods of `World.Host` are the outside world: their nondeterministic choices stand for failures,
other nodes and multipathd. `Host.log` records what the driver asked for, with what the array mapped
at that moment, so statements about order and reach are statements about the log. Some sets of the
state only record things for the statements: `unread` the disks some read has failed for since the
present section of Exclusive began, `missed` the disks the last complete sweep could not read (or,
missed before, could not delete), `dirty` the LUNs a failed rollback left behind until a complete sweep
leaves no stale path there, and `orphans` the names multipathd may still hold.

Most statements say what holds whatever fails. Alone they would also hold of a driver that does
nothing, so the methods say more of nodes on which nothing fails (`World.Host.calm`,
`Operations.Goroutine.calm`, `TakeOver.Driver.answers`): there a sweep leaves no stale path, a detach
removes every path of its volume unless something holds its map, a release disconnects, an attach
attaches, a check passes exactly when it should, and an operation reaches its end. Other nodes still
act on such a node unless it is `quiet` as well; then a mount succeeds exactly when the device that
appeared fits and the mounter does its part. On a `readable` node reads of sysfs work, whatever else
fails: `unread` stays empty there.

## What the code does not do

Where a comment or a test promises more than the code delivers, the model follows the code, a lemma
gives the input, and another says exactly when the promise holds. Where failures decide what happens,
the input is a node together with an outcome that the contract of the method allows there.

* A sweep ignores an error while listing a map's members, so it can take a map with a live path for
  wholly stale and condemn it (`Iscsi.LiveMapDropped`); it cannot exactly when no map with a stale path has another
  (`Iscsi.DropsOnlyStaleMapsIff`).
* A path whose identity or LUN cannot be read is skipped, so an attach may succeed with a crossed path
  on its own LUN (`Attach.UnreadableDiskStaysCrossed`); it does not exactly when every foreign path
  there could be read (`Attach.AttachedLunIsCleanIff`).
* A detach may flush into another volume: down a path of its own when the array does not tell the LUN
  map (`Iscsi.FlushedIntoAnother`); down the map when a stale path under that could not be deleted
  (`Iscsi.MapFlushedIntoAnother`), or when multipathd has put another volume's path there, though nothing
  fails (`Attach.ForeignMemberFlushed`). A detach that manages to delete a given set of stale paths cannot
  exactly when no path it may flush leads to another volume and, if it may flush the map, none left under
  that does (`Iscsi.FlushesStayHomeIff`); whatever fails, when that holds with nothing deleted
  (`Iscsi.AllFlushesStayHomeIff`).
* An error while looking for what holds a map is ignored, so a held map may lose its queueing and be
  removed (`Iscsi.HeldMapTakenDown`); a detach leaves it alone exactly when it saw a holder
  (`Iscsi.MapUntouchedIff`), as it does where sysfs can be read.
* `CheckLUN` passes over a disk multipathd files under the map if the disk's identity cannot be read, so
  it may pass with another volume's disk about to join (`Iscsi.UnreadableForeignPasses`); passing means
  there is none exactly when every such disk could be read (`Iscsi.PassedIsCleanIff`).
* `fixMembership` looks at this array's maps only; a path in another array's map is pulled out only
  if multipathd also files it elsewhere (`Membership.LeftInAnotherArraysMap`,
  `Membership.NoneLeftInForeignMaps`).
* `addPath` and `refile` add a path on faith when udev's database cannot be read, and may misfile it
  (`Membership.AddedBlindly`).
* A keep timer compares generations, and a new record starts over at 1, so a timer of an earlier
  record can release a later one (`Lifecycle.OldKeepTimerActsOnNewRecord`); it does nothing exactly
  when no record is at its generation or Shutdown has begun (`Lifecycle.KeepTimerActsIff`).
* Between a login and reading the token back, another request's 401 may clear the token, and the request
  goes out without one (`Retry.SentWithoutToken`); only then (`Retry.RequestIsSparing`).
* `HostLUNs` counts an empty serial as an answer (`HostLuns.EmptySerialIsAccepted`,
  `HostLuns.EmptySerials`) and stops at a page that has more but no token
  (`HostLuns.MoreWithoutTokenIsMissed`, `HostLuns.ReadIff`).
* A volume listed at two LUNs, as one that reconnects between two pages is, loses the earlier one without
  an error (`HostLuns.EarlierLunIsLost`), and a full sweep on such a list takes a live path there for stale
  (`Iscsi.LivePathTakenForStale`). Every listed connection is kept exactly when no volume is listed at two
  LUNs (`HostLuns.EveryConnectionKeptIff`).
* The adopt dry run does not notice one array volume listed under two Docker names, an empty Docker
  name or a volume that is not there (`Adoption.TwoNamesForOneVolume`,
  `Adoption.DryRunTellsTheTruthIff`).
* A removed volume that is recovered after its name was created again leaves two live volumes with
  one tag (`Adoption.RecoveredBesideItsSuccessor`, `Adoption.RecoverKeepsInjectiveIff`).

## Model

Rows that begin with "Step:" state facts about one operation or one value, for the results over whole
operations and runs to rest on.

| member | source | states |
|---|---|---|
| World.Host.DeletePath | internal/transport/iscsi.go:655-661 | A disk already gone counts as deleted; a deletion takes exactly that disk and, failing or not, leaves multipathd's record of it |
| World.Host.Connect | internal/flasharray/client.go:679-693 | Success leaves the volume at the LUN returned and no other new LUN; an error gives no LUN to anybody; with nothing failing a host the array knows gets one |
| World.Host.Disconnect | internal/flasharray/client.go:696-702 | Success means the volume is on none of this host's LUNs; the log keeps which of its disks the host still had |
| Membership.Refile | internal/transport/iscsi.go:457-476 | Only this path moves; with every command working and udev readable it ends in its own volume's map if udev agrees by now and nowhere otherwise, by exactly the commands that takes |
| Membership.TakePath | internal/transport/iscsi.go:301-326 | Only this path can become misfiled, and that exactly if it is taken with udev illegible and out of date; with udev legible a path udev has not re-read is left alone, or announced again if udev has another identity for it, and one it has ends under its own identity; a record is dropped only if there is one |
| Membership.AddedBlindly | internal/transport/iscsi.go:301-326 | Step: a path added without a look at udev becomes misfiled exactly when udev still has another identity for it |
| Membership.ToRefileIff | internal/transport/iscsi.go:415-451 | Step: what there is to refile is exactly each path with an identity that is in a map of this array other than its volume's, or is of this array and on record under another identity; a record without one is left alone |
| Membership.FixMembership | internal/transport/iscsi.go:415-451 | The misfiled paths never become more; with every command working every path that had to be refiled is at home and all others are untouched |
| Membership.FixedForGood | internal/transport/iscsi.go:415-451 | After a clean run there is nothing left to refile: a second run has no command to issue |
| Membership.NoneLeftInForeignMaps | internal/transport/iscsi.go:408-451 | After a clean run no path of this array is left in another volume's map exactly when each that was in one also was in such a map of this array or was filed elsewhere |
| Membership.LeftInAnotherArraysMap | internal/transport/iscsi.go:420-422 | Such a path exists for some node: the maps of other arrays are skipped |
| Iscsi.ForgetDeleted | internal/transport/iscsi.go:340-382 | Ends in any case; success means multipathd holds no record of a deleted name, and nothing failing means success; it is told to drop records only after twenty seconds, unless the context ended before |
| Iscsi.DropMap | internal/transport/iscsi.go:688-713 | Success means the map is gone and no other map is; the flush comes first and only if asked for; it tries on until a removal works, but forces none on a map seen open |
| Iscsi.RemoveMap | internal/transport/iscsi.go:663-672 | A map seen to be held is left exactly as it was, and where sysfs reads every held one is; any other has its queueing off before anything else is done to it, is flushed, if asked, with all that is under it, and with nothing failing goes |
| Iscsi.StaleMeansNotLive | internal/transport/iscsi.go:736-757 | Step: for any list that contradicts nothing the array maps (and, unless only crossed paths are judged, leaves nothing out), a path judged stale does not reach its own volume |
| Iscsi.JudgePaths | internal/transport/iscsi.go:740-760 | The stale paths found are exactly those that are, among the disks that could be read |
| Iscsi.StopWhollyStale | internal/transport/iscsi.go:765-778 | Exactly the maps all of whose listed members are stale are condemned, and each has its queueing off |
| Iscsi.DeleteStale | internal/transport/iscsi.go:781-791 | Every stale path is tried, nothing else is, and what is reported gone is gone |
| Iscsi.DropWhollyStale | internal/transport/iscsi.go:792-796 | Only condemned maps are removed, and none is flushed |
| Iscsi.Sweep | internal/transport/iscsi.go:740-801 | Tries to delete exactly the stale paths; condemned maps stop queueing before any deletion and go unflushed after it; an error names exactly the undeleted stale paths on the LUN being attached or held records; on a trustworthy list nothing live is cut; with all members listed no map is dropped but those with stale ones only; of the paths of the array it leaves only those on a LUN the list gives to their own volume (a sweep for crossed paths also those on a LUN it gives to nobody), those it could not delete and those it could not read, and takes no others |
| Iscsi.CalmSweepIsExact | internal/transport/iscsi.go:720-757 | With nothing failing, a path is gone after the sweep exactly if it was stale, and a map is dropped exactly if it had members, stale ones only |
| Iscsi.DropsOnlyStaleMapsIff | internal/transport/iscsi.go:766-778 | However reads of members turn out, only maps with stale members alone are dropped, exactly when on the node before the sweep no map with a stale path has another |
| Iscsi.LiveMapDropped | internal/transport/iscsi.go:767-776 | A node where a listing that stops early has a map dropped under a live path |
| Iscsi.Detach | internal/transport/iscsi.go:591-652 | Success leaves no readable path with the serial and no record of a deleted name, and with nothing failing only a held map prevents it; a map seen to be held is not touched, and where sysfs reads every held one is seen; only the volume's own paths go; a failed map lookup or an empty serial touches nothing |
| Iscsi.FlushesStayHomeIff | internal/transport/iscsi.go:584-643 | No detach that deletes just these stale paths can flush into another volume, down a path or the map, exactly when no path of the volume it may flush reaches another and, if it may flush the map, no path left under that does |
| Iscsi.AllFlushesStayHomeIff | internal/transport/iscsi.go:584-643 | No detach can, whichever deletions fail, exactly when that holds with none of them made |
| Iscsi.HonestListIsSafe | internal/transport/iscsi.go:589-590 | Step: so it is on a list that leaves out and contradicts nothing the array maps, with the stale paths under the map deleted and no foreign one there |
| Iscsi.FlushedIntoAnother | internal/driver/driver.go:886-893 | A node and a detach without a list that flushes its path into the volume that has its LUN now |
| Iscsi.MapFlushedIntoAnother | internal/transport/iscsi.go:611-632 | A node and a detach with an honest list that fails to delete a stale path and flushes the map with it |
| Iscsi.HeldMapTakenDown | internal/transport/iscsi.go:663-672 | For any node with a held map, a detach that stops its queueing and removes it |
| Iscsi.MapUntouchedIff | internal/transport/iscsi.go:597-672 | Step: a detach does nothing to the volume's map exactly when multipathd does not run, there is none, or it saw that it is held |
| Iscsi.LivePathTakenForStale | internal/transport/iscsi.go:736-757 | A live path on a LUN the list leaves out is stale to a full sweep, and not to one for crossed paths |
| Iscsi.StalePathsGoFirst | internal/transport/iscsi.go:611-632 | Before the first flush every stale path has been tried, and the map is flushed only if a valid path is left or the LUN map was unreadable |
| Iscsi.FindDevice | internal/transport/iscsi.go:212-237 | A device found carries the volume's identity and, when asked for, has a path; a map that is there and readable is found |
| Iscsi.CheckLun | internal/transport/iscsi.go:821-860 | Passing means the device has paths, all on that LUN and, if the map's WWID could be read, its volume's, and that no foreign path is filed under it but those that could not be read; where sysfs reads that leaves none, and with nothing failing it passes exactly then; no path it passes claims another volume than the map |
| Iscsi.PassedIsCleanIff | internal/transport/iscsi.go:851-858 | Step: after a check that passed no foreign path is filed under the map exactly when every such path could be read |
| Iscsi.UnreadableForeignPasses | internal/transport/iscsi.go:851-858 | A node that passes although multipathd files another volume's path under the map |
| Attach.DetachLocked | internal/driver/driver.go:886-893 | Takes away only the volume's own paths, on success all that can be read, with nothing failing all; flushes only these and the map with what is left under it, and into no other volume if the array gave its LUN map or no path of the volume led to another, and no path left under the map did; deletes first every path that led to another volume if it got that map, read every disk and succeeded; asks the array for no connect or disconnect |
| Attach.ReleaseLocked | internal/driver/driver.go:1057-1070 | The array is asked to disconnect only with no readable path of the volume left on the host; with nothing failing path and connection both go; flushes reach where those of its detach may; with nothing failing they follow the deletion of every path that led to another volume |
| Attach.ForeignMemberFlushed | internal/driver/driver.go:886-893 | A Sound node and a detach that succeeds, with the honest list at hand, and flushes the map with another volume's path under it |
| Attach.ReleaseHost | internal/driver/driver.go:900-913 | The same for every release; without the Exclusive lock nothing at all changes |
| Attach.SweepBeforeConnect | internal/driver/driver.go:783-798 | Going on means the last sweep covered every LUN and left no deleted path with multipathd; with nothing failing it goes on, and no path of the array is crossed; going on, the paths of the array still there are on LUNs the array gave to their own volumes, but for those that could not be deleted or read |
| Attach.SweptLunIsClean | internal/driver/driver.go:804-811 | Step: after a complete sweep a path is crossed only if it could not be read or deleted; after one without error none of the latter is on the LUN |
| Attach.ConnectSwept | internal/driver/driver.go:775-815 | Never connects without such a sweep right before, nor after ErrPathsHeld; success leaves the LUN clean, failure leaves the LUN map no larger unless the rollback failed too; every disconnect finds the host bare; with nothing failing and the volume detachable it attaches; a rollback flushes paths of the volume and its map only, and into no other volume down a path that claims to be the volume's if the LUN map and all disks were read and the rollback succeeded; with nothing failing no path under that map claims to be another's; after an attach no path whose serial begins with the same sixteen characters is on a LUN mapped to another volume than its own, and where nobody else acts each leads to its own, but for those that could not be deleted or read, which with nothing failing there are none |
| Attach.AttachedLunIsCleanIff | internal/driver/driver.go:804-811 | After an attach no path on its LUN is crossed exactly when every path there claiming another volume could be read |
| Attach.UnreadableDiskStaysCrossed | internal/transport/iscsi.go:744-755 | A node with one unreadable disk, where an attach succeeds and leaves it crossed on the LUN just given |
| Attach.ClearLeftover | internal/driver/driver.go:1011-1037 | Says what it found by who holds or lists the device; removes a leftover only if the array lists no connection and nothing holds it; where the device is sure to be found its answer is determined; a refusal changes nothing |
| Attach.CheckPaths | internal/driver/driver.go:849-875 | Cuts no live path, and every crossed path left is one it tried to delete or could not read; with nothing failing none is left; that goes for every path whose serial shares its first sixteen characters with all that is mapped here |
| Attach.AbandonMount | internal/driver/driver.go:1075-1086 | The filesystem is shut down before it is unmounted, and detached only once unmounted; a failed unmount leaves the node as it is |
| Attach.MountFound | internal/driver/driver.go:724-766 | Success means every path under the device is on the connected LUN at the end, so that it reaches this volume and no other while the connection stands; with nothing failing and nobody else acting it comes exactly when the device fits and the mounter does its part; where sysfs reads the device fits all that CheckLUN looks for; where nothing fails and nobody else acts the end is determined, and no filesystem is touched on a device that does not fit or is mounted elsewhere |
| Attach.MountAttached | internal/driver/driver.go:716-766 | The same from the wait for the device on, which then has to be there; backing out to the end leaves no readable path and no connection |
| Attach.MountDevice | internal/driver/driver.go:707-766 | The same for the whole device half of a mount, which then gets as far as the device unless something is in its way; every connect in it was swept for, every disconnect bare; it refuses exactly when the leftover is held, could not be looked for, locked or removed, asks for no connect then, and with nothing failing changes nothing at all when a mount holds it |
| Runs.AttachKeepsSound | internal/driver/driver.go:769-815 | Step: an attach, however it ends, leaves no crossed path but on a disk a complete sweep missed or the LUN of a failed rollback |
| Runs.RunsStaySound | internal/driver/driver.go:769-815 | Over any run, whenever Exclusive is free, no path of the array sits on a LUN mapped to another volume, but on a disk the last complete sweep missed or the LUN of a failed rollback no sweep has cleared, told of every path whose serial begins as the volumes of the array do |
| Runs.DirtyLunsHadFailedRollbacks | internal/driver/driver.go:808-811 | A LUN is exempt only if an attach on it failed, its rollback did too, and every complete sweep since left a stale path there |
| Runs.MissedDisksWereUnreadable | internal/transport/iscsi.go:744-755 | A disk is exempt only if a complete sweep could not read it and each since could not either, or could not delete it |
| Runs.CrossedPathsHaveACause | internal/driver/driver.go:1039-1070 | A crossed path has one of these two causes |
| Runs.CrossedPathsComeFromFailedRollbacks | internal/driver/driver.go:1039-1070 | Where complete sweeps read every disk, whatever else fails, a crossed path sits on a LUN whose attach could not be rolled back and that no sweep has cleared since |
| Runs.PathCheckCures | internal/driver/driver.go:842-875 | Step: a path check that reads every disk and deletes what it is to delete leaves nothing crossed and nothing exempt, whatever went before |
| Runs.SectionsFlushHome | internal/driver/driver.go:880-913 | Over any run every path a section flushes is its volume's and leads to that volume or nowhere, and so does every path under a map it flushes that claims to be the volume's, the array's LUN map read or not, the two exemptions aside |
| Runs.FlushesStayHome | internal/driver/driver.go:880-913 | Over any run, with nothing foreign under the volume's map, all a section flushes, down paths or map, lands in the volume or nowhere if its stale deletions succeeded on a list the array gave, or nothing was exempt |
| Runs.MountedStaysServed | internal/driver/driver.go:724-766 | A mounted device reaches exactly its volume in the array's map through any later steps, while the connection stays and no path joins |
| Runs.NoRecordOutlivesItsDisk | internal/transport/iscsi.go:334-382 | Over a run whose sweeps and detaches succeed, every multipathd record is about the disk that has the name now |
| TakeOver.Driver.MarkHeld | internal/driver/driver.go:985-997 | The record kept dates from the earliest sighting, since the record was last cleared, from which every sighting saw exactly these hosts, never more than two minutes apart |
| TakeOver.Driver.WaitForRelease | internal/driver/driver.go:936-949 | The waiting loop ends, and what it returns is what was seen last; unless the context ends, it gives up on hosts still there only after half a minute or once the grace has passed |
| TakeOver.Driver.TakeOver | internal/driver/driver.go:926-967 | Other hosts are cut off if and only if the array goes on answering, they are still there, preemption is allowed, and since at least the grace every sighting saw exactly them, never more than two minutes apart; all of them if the array answers, and nobody else; unless the context ends it refuses only after half a minute, or when a sighting broke that row meanwhile |
| TakeOver.RetriesAgeTheRow | internal/driver/driver.go:926-997 | Step: retries no further apart than two minutes against the same hosts make such a row, as old as the first of them |
| TakeOver.TimersDueBeforePreemption | internal/config/config.go:170-182 | With an accepted linger, a linger or keep timer is due before any preemption that rests on sightings from half the grace before it was armed |
| TakeOver.LingerAcceptedIff | internal/config/config.go:170-182 | Step: a linger is accepted exactly if there is none, or it is under thirty seconds and at most half a grace there is |
| TakeOver.LongerLingerOvertaken | internal/config/config.go:178-179 | A linger longer than what half the grace leaves is rejected, and rightly: a preemption that breaks no rule would overtake it |
| Lifecycle.ApplyKeepsValid | internal/driver/driver.go:1101-1155 | Step: every operation and timer keeps tracked and kept volumes apart and generations in step with their timers |
| Lifecycle.RunsStayValid | internal/driver/driver.go:758-764 | In every interleaving no volume is ever both mounted and kept |
| Lifecycle.TeardownsAreJust | internal/driver/driver.go:1158-1309 | Step: a teardown is of the mount tracked at that moment, with no ref left but those all stale and unused, and a timer's is of the mount it was armed for |
| Lifecycle.UntrackedOnlyByTeardown | internal/driver/driver.go:1196-1246 | Step: a mount stops being tracked only through a teardown of it |
| Lifecycle.HeldMountStays | internal/driver/driver.go:1355-1376 | In every interleaving a mount with a ref stays tracked until that ref is unmounted or an Unmount finds all refs old and the volume unused |
| Lifecycle.ServedMountStays | internal/driver/driver.go:683-692 | In every interleaving a volume whose Mount was served to a container stays tracked with its ref until that is unmounted or an Unmount finds all refs old and the volume unused |
| Lifecycle.IdleMountsAreHandled | internal/driver/driver.go:1168-1309 | In every interleaving a mount without refs has a timer armed for it, or a teardown of it has failed, or Shutdown has begun |
| Lifecycle.MountSays | internal/driver/driver.go:683-766 | Step: a served Mount leaves the volume tracked with this ref at this time beside every earlier one; any other changes no mount |
| Lifecycle.UnmountSays | internal/driver/driver.go:1168-1192 | Step: an Unmount that leaves refs keeps the mount as it is, one that does not lingers under a new timer or tears down at once |
| Lifecycle.RemoveSays | internal/driver/driver.go:581-652 | Step: Remove tears down an idle mount, refuses one with refs or in use, and lets go of a kept attachment once released |
| Lifecycle.ShutDownSays | internal/driver/driver.go:1330-1348 | Step: Shutdown tears down an idle mount nothing uses and leaves any other |
| Lifecycle.OthersUntouched | internal/driver/driver.go:683-1349 | Step: no operation or timer changes what is tracked or kept of another volume |
| Lifecycle.SupersededForever | internal/driver/driver.go:1254-1273 | A timer whose mount or record has moved on never becomes current again |
| Lifecycle.MountSupersedes | internal/driver/driver.go:687-692 | Step: a Mount supersedes every linger timer its volume ever had |
| Lifecycle.RearmSupersedes | internal/driver/driver.go:1254-1263 | Step: so does arming a new one |
| Lifecycle.LateLingerTimerDoesNothing | internal/driver/driver.go:1278-1290 | A superseded linger timer changes nothing, however late it fires |
| Lifecycle.LateKeepTimerDoesNothing | internal/driver/driver.go:1132-1145 | A superseded keep timer changes nothing while its record lasts |
| Lifecycle.KeepTimerActsIff | internal/driver/driver.go:1132-1155 | Step: a keep timer changes nothing exactly when Shutdown has begun or no record is at its generation; a superseded one acts only on a later record |
| Lifecycle.OldKeepTimerActsOnNewRecord | internal/driver/driver.go:1108-1118 | After its record is gone it may act on the next one |
| Lifecycle.LingerFiresOnce | internal/driver/driver.go:1291-1308 | Step: a timer that acts leaves the volume untracked, exactly when it was idle and did unmount, or waiting for a newer timer |
| Lifecycle.KeepFiresOnce | internal/driver/driver.go:1132-1155 | Step: a keep timer that acts leaves the attachment released or kept under a newer timer |
| Mounts.Driver.CancelKeep | internal/driver/driver.go:1123-1130 | The record of this volume goes and nothing else changes |
| Mounts.Driver.KeepAttached | internal/driver/driver.go:1101-1120 | The record is armed anew, or nothing is kept without a grace |
| Mounts.Driver.CancelTeardown | internal/driver/driver.go:1265-1273 | The mount moves on a generation, unarmed, and no other mount changes |
| Mounts.Driver.ScheduleTeardown | internal/driver/driver.go:1254-1263 | The mount moves on a generation, armed, and no other mount changes |
| Mounts.Driver.Teardown | internal/driver/driver.go:1196-1246 | Once the filesystem has unmounted the volume is untracked, whatever fails after |
| Mounts.Driver.DropStaleRefs | internal/driver/driver.go:1359-1376 | Refs are dropped exactly when none is younger than two minutes and no container uses the volume |
| Mounts.Driver.Mount | internal/driver/driver.go:683-766 | Does to the driver's objects what Lifecycle proves safe; serves a tracked volume always; a served one leaves the ref beside every earlier one |
| Mounts.Driver.Unmount | internal/driver/driver.go:1168-1192 | The same for Unmount of a tracked volume |
| Mounts.Driver.Remove | internal/driver/driver.go:586-652 | The same for Remove; it succeeds exactly if the volume is gone, or live, released, and not mounted, or idle, unused and torn down without a fault |
| Mounts.Driver.LingerExpired | internal/driver/driver.go:1278-1309 | The same for a linger timer, comparing mountStates by reference |
| Mounts.Driver.KeepExpired | internal/driver/driver.go:1132-1155 | The same for a keep timer |
| Mounts.ShutStep | internal/driver/driver.go:1330-1348 | Step: one more volume's turn leaves mounts with refs as they were and settles this one |
| Mounts.Driver.Shutdown | internal/driver/driver.go:1315-1349 | Mounts with refs stay; given time, every idle one is untracked unless in use or stuck |
| Mounts.Driver.RecoverMounts | internal/driver/driver.go:183-224 | Tracks exactly what was found mounted, without refs, each with its timer if there is a linger |
| Locks.Mutex.Lock | internal/ctxlock/ctxlock.go:18-26 | Success takes a lock that was free; giving up takes nothing |
| Locks.TakenIsReleased | internal/driver/driver.go:363-375 | An operation that ends holding nothing released every lock exactly as often as it took it |
| Locks.NeverTwoVolumes | internal/driver/driver.go:278-298 | At no point are two volumes' locks held |
| Locks.RunsKeepExclusion | internal/ctxlock/ctxlock.go:9-32 | In every run of any number of operations no lock has two holders |
| Locks.DoneByOneAlone | internal/transport/iscsi.go:40-50 | While one operation does work a lock guards, no other holds that lock or does work under it |
| Locks.SomeoneCanStep | internal/driver/known.go:76-81 | From any blocked operation the chain of holders, climbing the lock order, ends at one that can go on |
| Locks.NoDeadlock | internal/driver/driver.go:358-375 | A run that cannot go on has finished every operation and freed every lock |
| Locks.RunsEnd | internal/ctxlock/ctxlock.go:18-32 | Every run is finite, one step for each act |
| Operations.Goroutine.LockCtx | internal/driver/driver.go:363-375 | The closure returned owes exactly the lock taken, or none |
| Operations.Goroutine.ResolveLocked | internal/driver/driver.go:278-298 | On every path, re-resolution included, the closure owes exactly what is held, and it is the lock of the name returned |
| Operations.Goroutine.Create | internal/driver/driver.go:395-462 | Ends holding nothing on every path; the volume is made and tagged under the lock of the name it gets |
| Operations.Goroutine.ImportBody | internal/driver/driver.go:525-536 | The tag is written under the array volume's lock |
| Operations.Goroutine.Remove | internal/driver/driver.go:581-674 | Ends holding nothing; the volume is removed under its lock |
| Operations.Goroutine.Mount | internal/driver/driver.go:677-767 | Ends holding nothing; a volume is served under its lock; one that was not tracked was connected under Exclusive, and with nothing failing scanned for under it |
| Operations.Goroutine.Unmount | internal/driver/driver.go:1158-1192 | Ends holding nothing; refs change under the volume's lock |
| Operations.Goroutine.TimerExpired | internal/driver/driver.go:1278-1309 | Ends holding nothing, having worked under the volume's lock whether or not the timer is current |
| Operations.Goroutine.Shutdown | internal/driver/driver.go:1315-1349 | Ends holding nothing, having worked on every idle volume under its own lock, one at a time |
| Operations.Goroutine.SetKnown | internal/driver/known.go:46-91 | saveMu is taken without mu held, and mu inside it |
| Retry.Client.Do | internal/flasharray/client.go:248-329 | Sends, logs in and ends exactly as the step-by-step account of one request says, and leaves its token |
| Retry.RequestIsSparing | internal/flasharray/client.go:241-329 | At most five requests; each but the last was answered by its one 401, a 429, or for other methods than POST a 5xx or nothing; the result is what the last answer says, and a repeatable one was given up on only for want of attempts or time; one goes out without a token only if others cleared it after its login |
| Retry.ResultSays | internal/flasharray/client.go:311-329 | A request is done exactly if its last answer is a success with what was asked for, and its object missing exactly if that is a 400 saying so in the words of the array |
| Retry.TokensSay | internal/flasharray/client.go:260-301 | Each request carries the token that was there when its attempt began, if there was none the one read back after a login, and every missing one takes exactly one login; the last one stays |
| Retry.RetryableIff | internal/flasharray/client.go:281-310 | Step: a 429 is retried always, a 5xx or no answer unless it is a POST |
| Retry.SentWithoutToken | internal/flasharray/client.go:265-273 | Such a request: logged in for, then sent without the token another cleared |
| Retry.PostAppliedAtMostOnce | internal/flasharray/client.go:244-247 | If the array carries out nothing it answers with 401 or 429, it applies a POST at most once |
| Retry.OthersMayBeAppliedTwice | internal/flasharray/client.go:281-290 | Not so for any other method |
| Retry.FiveRequests | internal/flasharray/client.go:241-310 | The bound of one request beyond maxAttempts is reached |
| Retry.LoginsAreFew | internal/flasharray/client.go:265-299 | Unless others clear the token, one request logs in at most once beyond a missing token |
| HostLuns.ImageSize | internal/flasharray/client.go:751-753 | Step: an image is as large as its set exactly when nothing is merged |
| HostLuns.SizesDecide | internal/flasharray/client.go:739-753 | As many serials as connections exactly when every volume was answered for and no two share a LUN |
| HostLuns.JoinIsOwn | internal/flasharray/client.go:745-749 | Then each LUN carries its own volume's serial |
| HostLuns.Connections | internal/flasharray/client.go:720-738 | Every item up to the last page, later ones over earlier, or the first error |
| HostLuns.Chunks | internal/flasharray/client.go:740 | Every name is asked for exactly once, at most fifty at a time |
| HostLuns.HostLUNs | internal/flasharray/client.go:720-755 | Answers exactly when nothing failed, every volume was answered for and LUNs are distinct, and then with exactly those LUNs and serials, in lower case |
| HostLuns.ReadIff | internal/flasharray/client.go:731-737 | A connection is read exactly when it is on a page up to the first without a token or with no more |
| HostLuns.EveryConnectionKeptIff | internal/flasharray/client.go:731-755 | Every listed connection is in the answer, with its volume's serial, exactly when no volume is listed at two LUNs (the other way while serials differ) |
| HostLuns.EarlierLunIsLost | internal/flasharray/client.go:731-733 | A volume listed at LUN 1 and then 2 is answered at LUN 2 only, without an error |
| HostLuns.AnswersTheTruth | internal/flasharray/client.go:87-89 | From an array that lists honestly, each LUN of an answer without error is a connection of the volume with that serial, and every connection is there if no volume has two |
| HostLuns.MoreWithoutTokenIsMissed | internal/flasharray/client.go:734-736 | A page with more but no token ends the reading |
| HostLuns.EmptySerials | internal/flasharray/client.go:745-753 | An answer holds an empty serial exactly when a listed volume's item does |
| HostLuns.EmptySerialIsAccepted | internal/flasharray/client.go:745-753 | An empty serial makes no error |
| Adoption.LookupSays | internal/flasharray/client.go:520-533 | A lookup finds a volume exactly when it alone carries the tag, and nobody exactly when nobody does |
| Adoption.AdoptSucceedsIff | internal/driver/driver.go:542-578 | Adopt succeeds exactly when both names are given, the volume is live, nobody else carries the tag and it carries no other of the namespace |
| Adoption.AdoptKeepsTags | internal/driver/driver.go:538-578 | Success leaves the volume tagged, the namespace's tags extended, every other volume alone, and tags one to a volume |
| Adoption.Array.Adopt | internal/driver/driver.go:542-578 | Does and answers what these lemmas are about |
| Adoption.Array.RunPlan | cmd/docker-volume-flasharray/adopt.go:101-145 | Verdicts, failures and the array after a run are those the two runs are compared by; a dry run changes nothing; what it counts as failed is every conflict and every failed adoption |
| Adoption.LinesSay | cmd/docker-volume-flasharray/adopt.go:116-128 | In either run a line is skipped exactly if its volume carried the tag at the start, and a conflict over its own tag exactly if it carried another of the namespace |
| Adoption.TriageSays | cmd/docker-volume-flasharray/adopt.go:116-128 | Step: what is said of a line, by the tags at the start and what is claimed so far |
| Adoption.StaysInStep | cmd/docker-volume-flasharray/adopt.go:107-141 | After any lines of a real run every tag of the namespace belongs to its claimant and was there before or comes from a line the dry run would adopt |
| Adoption.DryRunTellsTheTruthIff | cmd/docker-volume-flasharray/adopt.go:107-141 | The two runs agree on every line exactly when every line the dry run would adopt has a name, a live volume and no earlier rival name for it |
| Adoption.TwoNamesForOneVolume | cmd/docker-volume-flasharray/adopt.go:116-134 | A plan they disagree on |
| Adoption.RealRunExtendsTags | cmd/docker-volume-flasharray/adopt.go:114-141 | The final tags extend the old ones, one to a volume, adopted lines are tagged, and no other volume's tag changes in any namespace |
| Adoption.CreatedIsNew | internal/driver/driver.go:427-461 | Create makes a volume exactly when no live one is remembered for the name or tagged with it and there is a free array name, and takes no other volume's place, destroyed ones included |
| Adoption.CreatedIsFound | internal/driver/driver.go:427-461 | The name of a volume created and tagged resolves to it |
| Adoption.RunsKeepInjective | internal/driver/driver.go:427-578 | Over any sequence of create, import, adopt and remove, live tags stay one to a volume |
| Adoption.RecoveredBesideItsSuccessor | internal/driver/driver.go:653-666 | A volume removed, its name created again and the old one recovered: two live volumes with one tag |
| Adoption.RecoverKeepsInjectiveIff | internal/driver/driver.go:653-666 | Recovering a removed volume keeps that exactly when no live one has taken its tag |
| Known.FileMatchesMemory | internal/driver/known.go:45-91 | In every interleaving, once nothing is in flight the file holds what memory holds, unless the very last write failed |
| Known.AllWritesWork | internal/driver/known.go:45-91 | With every write successful there is no unless |
| Known.FileNeverGoesBack | internal/driver/known.go:75-91 | At any moment the file holds a value memory has had, never an earlier one than before |
| Known.StepSays | internal/driver/known.go:46-91 | Step: what setting, replacing, locking, the snapshot and the write do to memory and the file; only a change leaves a save to make, and a write brings in what its snapshot saw |
| Known.SavesGoOn | internal/driver/known.go:46-91 | Whatever is in flight, an idle goroutine may change the list, and while there is a save to make somebody can go on with one |
| Known.Driver.SetKnown | internal/driver/known.go:46-60 | Memory holds the entry or lacks it, and the file is written exactly if that was a change |
| Known.Driver.ReplaceKnown | internal/driver/known.go:63-73 | The same for the whole list |
| Known.Driver.Lookup | internal/driver/driver.go:256-325 | A name at hand is used unless the array says its volume is gone or destroyed; then, and without one, the tag decides, and without a tag the computed name; only a tag is remembered |
| Known.Driver.Get | internal/driver/driver.go:1464-1479 | Answers not-found exactly when the last the array said about the volume was that; without an answer it gives the array name known, and fails exactly if there is none; drops no known name and writes the file on a change |
| Known.Driver.List | internal/driver/driver.go:1504-1529 | The array's names become the known ones; without an answer the known ones are listed, if any |
| Identity.CarriesIffSame | internal/transport/transport.go:194-236 | Of serials of one length, a disk passes for a volume exactly when the serials agree, in any case of letters |
| Identity.ShorterSerialCarries | internal/transport/iscsi.go:592-595 | A serial others begin with passes for theirs; the empty one, which Detach refuses, for every disk |

## Left out

- World.Host.DeletePath: a deletion that timed out does not take effect later, within a sweep or detach or after it, though the abandoned write may; between sections that is the step KernelDrops of `Runs`, which no run that `Runs.NoRecordOutlivesItsDisk` speaks of takes.
- World.Host.HostLuns: an answer is the LUN map of one moment, whole; what the paged listing can lose is in `HostLuns`, and the two are not joined.
- World.Host.Connect: an error is taken to leave the array unchanged, as the driver takes it.
- Iscsi.Sweep: the order in which Go visits maps and lists directories is any order; deletions it issues are in any order too.
- Iscsi.Detach: multipathd acts between sections and whenever it is asked for its records, not between the other stages of a sweep or detach.
- Iscsi.RemoveMap: leaves a held map alone only if the look at its holders shows one, as the code does.
- Iscsi.CheckLun: reads the node at one instant; kernel-initiated scans in the middle of a section of Exclusive are not modelled, here or elsewhere.
- Iscsi.FindDevice: the wait of `WaitForDevice` with its rescans is one lookup between arbitrary changes.
- Attach.ConnectSwept: serials are in lower case, as sysfs shows them and `HostLuns.HostLUNs` gives them; that tests on WWIDs compare so is in `Identity`.
- Attach.MountDevice: `takeOver` comes before it and is in `TakeOver`; what the mounter answers is a parameter.
- TakeOver.Driver.TakeOver: another node may attach between the last sighting and this node's connect; cluster-wide single writers are not claimed. Host keys are multisets where the code joins sorted names with commas.
- Lifecycle.LingerFiresOnce: says nothing of idle mounts whose teardown failed in Unmount or Remove, which arm no timer.
- Mounts.Driver.RecoverMounts: resolving mount directories to volumes is a parameter; a recovered mount's missing serial is part of whether its teardown can read one.
- Operations.Goroutine.Mount: which branch is taken is open, so each method covers more paths than the code has.
- HostLuns.HostLUNs: names are chunked in any order where the code sorts them; the listing is finite.
- Adoption.Array.RunPlan: the plan's order is a parameter, as `sort.Slice` leaves equal names in any order; building the plan from flags and array listings is left out. Array errors and other writers during a run are too, and no array volume has an empty name.
- Known.Driver.Get: the array's tags are taken not to be empty strings.
- The NVMe transport, whose Sweep and CheckLUN do nothing.
- Command execution, sysfs and procfs formats, TCP probes, iSCSI login, session parsing, logging, HTTP and JSON.
- The mounter: formatting, mounting, `waitIdle` and what counts as in use are answers.
- Volumes an administrator connects to this host by hand.
- `nameTags` paging and filters, `EnsureHost` identifiers, `ParseSize`, name sanitising and hashing.
- Deadlines and budgets beyond whether a wait ended: contexts are booleans.
