# A verified model of storaged's mirror of LVM

storaged shows the state of LVM on D-Bus. A privileged helper lists the volume groups and
describes each of them; the daemon keeps objects for groups, volumes and blocks in step with
those answers, with uevents, timers and exiting children. This project models the daemon as
state machines, one GLib callback a step, and proves what they keep over all runs.

Verify it with `dafny verify dfyconfig.toml` (Dafny 4.11).

## How it is built

Each part has three layers. A datatype holds the state, and a function `Step` says what an
event makes of it. Classes with the fields of the source's objects change them in place, and
every method is proved to change the state exactly as `Step` (or a function it is made of)
says. Lemmas then speak about runs: `IsRun(states, events)` starts in the initial state and
takes one enabled event after the other, so a lemma about a run holds for every interleaving.

| file | part |
|---|---|
| `ObjectPath.dfy` | names escaped into object paths (`src/util.c`) |
| `LvmNames.dfy` | which volume names are hidden (`src/util.c`, `src/volumegroup.c`) |
| `MirrorState.dfy` | groups, volumes, block overlays as values, and the six events |
| `Mirror.dfy` | the objects of `src/volumegroup.c`, `src/logicalvolume.c`, `src/block.c`, `src/manager.c` |
| `MirrorRuns.dfy` | reconciliation, the shape of groups |
| `MirrorLinks.dfy`, `MirrorTheorems.dfy` | links between blocks and groups, and when they are complete |
| `MirrorShortcuts.dfy` | skipped replies, order of the hash table, list replies, late replies |
| `MirrorWitness.dfy` | three runs in which links go wrong |
| `Displacement.dfy` | the step of the daemon where an object takes the path of another, and when it differs |
| `Collisions.dfy` | that in terms of names; the daemon's runs with names that are apart; orphans |
| `DisplacedLinks.dfy` | the links in the daemon's own runs, with the exact conditions under which they go wrong |
| `History.dfy` | every property of groups and volumes as a function of the replies that came |
| `MirrorBus.dfy` | the calls that publish and unpublish, one by one, on the registry |
| `DisplacementWitness.dfy` | three runs in which names collide |
| `Batch.dfy` | the barrier over a list and its descriptions, coldplug and warmplug |
| `Poll.dfy` | the rate-limited poll of a group |
| `Replies.dfy` | calls answered when an object is published |
| `Registry.dfy` | what is exported where (`src/daemon.c`) |
| `Lifetime.dfy` | counting clients and jobs, and when the daemon has finished |
| `SpawnedJob.dfy` | child, pipes and sources of a spawned command |
| `Estimator.dfy` | the expected end time of a job |

## What the environment is assumed to do

These are conditions of events (`Enabled`), because the code relies on them.

- A block's device, symlinks and udev properties stay as they are while its overlay lives.
- `DM_LV_NAME` is there whenever `DM_VG_NAME` is. A reply without a list of volumes or of
  physical volumes is one with an empty list, and every volume has a name.
- The process ids of children whose callback has not run are distinct and not zero.
- Hash tables are walked in any order; the orders are part of the events (`gone`, `order`).
- Clients are noticed on one thread, and the main loop takes notes in the order they were sent.
- The bus reports a name as acquired or lost only while it is being requested.
- The last reference to a disposed group may go whenever no answer about it is awaited: with its
  last reply, poll, timer or idle source, or with the table's own reference. A callback that drops
  it is its own event and then `LastUnref`. In the middle of a list reply the order makes no
  difference (`MirrorLinks.FreeingCommutes`). A volume that was ever made keeps its group
  (`src/logicalvolume.c:841-843`).
- A job's process watch fires once, and finalization waits for idle sources, which hold a
  reference.

## Names that collide

An object that is published where another object of its kind is exported takes the path away
from it. The steps of `MirrorState`, and the classes of `Mirror`, leave that out; the step of the
daemon is `Displacement.Step`. The two agree exactly if nothing shares a path afterwards
(`Displacement.SameStep`), in terms of names exactly if the event publishes no name that decodes
like that of another object that is exported and stays (`Collisions.DisplacesExactly`). As long as the names of the
live groups are apart, and those of the volumes in each, the daemon's runs are the runs of
`MirrorRuns` (`Collisions.ApartRuns`): with this everything that the modules `MirrorRuns`,
`MirrorLinks`, `MirrorTheorems` and `MirrorShortcuts` prove of runs holds of the daemon. The
registry confirms the step: after all calls it has the objects of the world at the paths that the
world gives them, whatever names there are (`MirrorBus.BusShowsWorld`).

## Where the code does something else than it seems to promise

Each of these is kept as the code has it, with the exact condition proved.

- The comment at `src/util.c:47-48` says that the escaping cannot be undone. Two names get the
  same path exactly if they decode to the same (`ObjectPath.SameEncoding`); on names
  without something that looks like an escape it can be undone (`ObjectPath.DecodesToItself`).
  A byte from 0x80 up is a negative `char` and is printed with eight digits.
- Two groups whose names collide share a path. When the one that holds it goes, the volumes of
  the other stay on the bus without a group above them (`Collisions.OrphansExactly`,
  `DisplacementWitness.VolumeIsOrphaned`). A link names a group that does not list the block
  exactly from when a group is published without a description at the path of a linked block's
  group (`DisplacedLinks.PvStep`, `DisplacementWitness.LinkNamesAnother`), and the path of another
  group's volume exactly from when a new volume takes that path (`DisplacedLinks.LvStep`,
  `DisplacementWitness.LinkNamesOtherVolume`).
- Links are complete only as long as no group lets go of a block that a second group lists as
  well: `src/volumegroup.c:429-436` clears the link and nobody sets it again
  (`MirrorTheorems.CompleteStep`, `MirrorWitness.BlockIsAbandoned`).
- A full reply to a group that was disposed in the meantime still relinks blocks
  (`MirrorLinks.SoundStep`, `MirrorWitness.LateDescription`).
- A group without volumes is disposed a second time when its last reference goes
  (`src/volumegroup.c:111-141`), and updates all blocks with nothing listed and no path. That
  clears links to no path, and takes the volume links of a live group of the same name away
  (`MirrorLinks.FreedBlock`, `MirrorLinks.LvStep`, `MirrorShortcuts.LateReply`,
  `MirrorWitness.VolumeUnlinked`).
- `update_with_variant` returns without calling `done` on an error and on an unchanged reply
  (`src/volumegroup.c:488-505`), so an update completes only if every reply is a change
  (`Batch.Barrier`), and one that repeats a description never does (`Batch.SilentForGood`,
  `Batch.RepetitionHangs`). Coldplug on distinct names completes exactly if all helpers succeed,
  as long as no other update has reached the groups (`Batch.ColdplugCompletes`).
- A job that fails after its object was published uses a freed closure and answers a second time
  (`Replies.FaultIsLateFailure`, `Replies.AnsweredOnce`, `Replies.LateFailure`), and a cancelled
  job whose child was seen to exit first emits its completion without texts
  (`SpawnedJob.FaultMeans`, `SpawnedJob.LateIdle`).
- The daemon announces that it finished a second time when it loses the name while idle
  (`Lifetime.FinishedMeans`, `Lifetime.FinishedTwice`).

## Model

Rows of `Mirror`, `MirrorRuns`, `MirrorLinks`, `MirrorTheorems` and `MirrorShortcuts` are about
steps without displacement, see "Names that collide". Behind the rows on list replies are closed
forms of what removing any groups in any order makes of a block and of the disposed groups
(`MirrorTheorems.RemoveAllBlocks`, `MirrorTheorems.RemoveAllDead`).

| member | source | states |
|---|---|---|
| ObjectPath.SafeAppendToObjectPath | src/util.c:51-73 | the loop appends the encoding of the whole string |
| ObjectPath.BuildObjectPath | src/util.c:75-98 | NULL for a NULL base or one that ends in a slash, else the base and one element for each part |
| ObjectPath.EncodeIsSafe | src/util.c:59-71 | only characters allowed in an element come out, and nothing comes out only for the empty name |
| ObjectPath.BuiltPathIsValid | src/util.c:75-98 | on a valid base, the path is a valid object path (D-Bus Specification, "Valid Object Paths") exactly if no part is empty |
| ObjectPath.SameEncoding | src/util.c:36-50 | two names get the same element exactly if they decode to the same |
| ObjectPath.DecodesToItself | src/util.c:36-50 | decoding gives the name back exactly if nothing in it looks like an escape |
| ObjectPath.PlainNamesDiffer | src/util.c:51-73 | such names are told apart |
| ObjectPath.CollidingNames | src/util.c:46-48 | two different names with one encoding |
| ObjectPath.SamePath | src/util.c:86-95 | two lists of parts give one path exactly if they are equally long and decode to the same part by part: the separator is never produced by a part |
| LvmNames.ReservedMeans | src/util.c:100-114 | a name is hidden exactly if it has one of seven parts in it or begins with one of two words |
| Mirror.StorageLogicalVolume.Update | src/logicalvolume.c:254-352 | the scalar properties and the one publication below the group's path, as a function of the description |
| Mirror.StorageLogicalVolume.Dispose | src/logicalvolume.c:89-101 | the volume leaves the bus |
| Mirror.StorageBlock.UpdateLv | src/block.c:252-288 | the volume interface is there exactly if a volume is given, and names its path |
| Mirror.StorageBlock.UpdatePv | src/block.c:290-324 | the physical volume interface is there exactly if a group is given; what a description lacks keeps its value |
| Mirror.StorageBlock.Dispose | src/block.c:64-87 | both interfaces go |
| Mirror.StorageVolumeGroup.UpdateBlock | src/volumegroup.c:388-438 | device first, then the first matching symlink; without a match only this group's own link is cleared |
| Mirror.StorageVolumeGroup.UpdateAllBlocks | src/volumegroup.c:440-449 | every overlay is relinked, in any order, and nothing else |
| Mirror.StorageVolumeGroup.UpdateWithVariant | src/volumegroup.c:457-585 | the group, the blocks and the answer to the caller after any reply: errors, repetitions and changes; surviving volumes stay the same objects, vanished ones are off the bus |
| Mirror.StorageVolumeGroup.PollWithVariant | src/volumegroup.c:641-660 | an accepted poll changes properties of known volumes only |
| Mirror.StorageVolumeGroup.Dispose | src/volumegroup.c:111-141 | volumes are gone and blocks unlinked before the path is lost |
| Mirror.StorageManager.ShowReply | src/volumegroup.c:457-585 | the whole mirror takes the step of a full reply, for live and for disposed groups |
| Mirror.StorageManager.PollReply | src/volumegroup.c:615-661 | the whole mirror takes the step of a poll |
| Mirror.StorageManager.FreeGroup | src/volumegroup.c:111-141 | when the last reference goes, a disposed group is disposed again: the whole mirror takes the step `LastUnref` |
| Mirror.StorageManager.RemoveObsolete | src/manager.c:139-166 | removing while iterating disposes exactly the groups that are not listed, each once |
| Mirror.StorageManager.LvmUpdateFromVariant | src/manager.c:139-185 | the whole mirror takes the step of a list reply |
| Mirror.StorageManager.UpdateFromAllGroups | src/manager.c:308-318 | some order of all groups was walked, and the block is what that walk makes of it |
| Mirror.StorageManager.OnInterfaceAdded | src/manager.c:320-344 | a new overlay takes the place of an old one, which is disposed, and is linked by all groups |
| Mirror.StorageManager.OnInterfaceRemoved | src/manager.c:360-382 | the overlay goes, nothing else changes |
| MirrorRuns.FullPassVolumes | src/volumegroup.c:507-555 | after a changed reply the volumes are exactly the visible names in it; survivors keep their path, new ones go below the group |
| MirrorRuns.PvTableMeans | src/volumegroup.c:559-574 | a device is in the table exactly if an entry names it, with the description of the last one |
| MirrorRuns.InvStep | src/volumegroup.c:457-585 | where nothing is displaced, every event keeps this: the tables of each group are those of the last reply taken in, and live groups are on their own path |
| Collisions.NoOrphans | src/volumegroup.c:478-486 | in every run whose group names are apart, late replies included, an exported volume is at its group's path, a slash and its escaped name, and its own group is exported; nothing of a disposed group is |
| Collisions.OrphansExactly | src/manager.c:139-166 | an event orphans a volume exactly if it is a list reply that takes away the group at a path, keeps a displaced group with a volume below it, and publishes no other group there |
| MirrorBus.OpsLead | src/volumegroup.c:111-141 | the calls of one event, in the source's order and for any walks: each has an effect, in the end the registry has the objects of the new world at their paths, and nothing is orphaned on the way unless a list reply comes while group names collide |
| MirrorBus.ShowLeads | src/volumegroup.c:478-555 | for a full reply: the group first, then its new volumes, each once, then the vanished ones |
| MirrorBus.DisposeLeads | src/volumegroup.c:120-138 | for a disposal: all volumes in any order, then the group; an orphan is left only if another group has a volume below the path |
| MirrorBus.DeadIsSilent | src/logicalvolume.c:344-351 | a late reply to a disposed group publishes nothing and unpublishes nothing |
| MirrorBus.BusShowsWorld | src/daemon.c:832-946 | in every run, whatever names there are, the registry after all calls has exactly the live objects at the paths of the world |
| MirrorBus.EveryCallTakes | src/logicalvolume.c:89-101 | in every run nothing is published that is there and nothing unpublished that is not |
| MirrorBus.NeverOrphaned | src/volumegroup.c:478-486 | in every run whose group names are apart, within every callback and after every call, there is a group above each volume |
| Displacement.InvStep | src/daemon.c:846-877 | every event of the daemon keeps this: an object is at its own place or nowhere, and no two objects of a kind are at one place |
| Displacement.SameStep | src/daemon.c:846-877 | the step with displacement is the step without exactly if after the latter nothing shares a path |
| Collisions.DisplacesExactly | src/util.c:51-98 | they differ exactly if the event publishes a name that decodes like that of another object of the kind that is exported and stays, for volumes in a group that does so too |
| Collisions.ApartRuns | src/daemon.c:846-877 | the daemon's runs in which names are apart are the runs of `MirrorRuns` |
| History.ShownIsTold | src/volumegroup.c:457-661 | in every run of the daemon, whatever names there are, what a group shows (figures, tables, polling flag, volumes and their properties) is determined by the replies that came for it since it was listed, as the next rows say |
| History.PollingIsTold | src/volumegroup.c:509-557 | polling is wanted exactly if in the last full reply some name begins with `pvmove`, or some name that is not hidden has an attribute string longer than six with `t` at position six |
| History.VolumesAreTold | src/volumegroup.c:511-555 | the volumes are the names of the last full reply that are not hidden |
| History.VolumeIsTold | src/logicalvolume.c:272-302 | a volume is active exactly if the last entry that named it, in a full reply that was no repetition or in an accepted poll, has an attribute string longer than six with `a` at position four; a pool exactly if that has `t` at zero and six; uuid and size are those last given |
| History.GroupIsTold | src/volumegroup.c:271-291 | uuid, size, free size and extent size of a group are those last given, by full replies, repetitions included, or polls |
| History.ThinIsPolled | src/logicalvolume.c:287-288 | a thin volume that is shown wants polling |
| History.HiddenIsNotPolled | src/volumegroup.c:524-525 | the hidden data volume of a pool does not |
| History.OrdinaryIsNotPolled | src/logicalvolume.c:279-288 | nor does an ordinary volume |
| History.LastEntryWins | src/logicalvolume.c:293-302 | within one reply the last entry of a name decides |
| DisplacementWitness.CollidingGroups | src/util.c:59-71 | two legal group names with one path, so that the next three rows are about real names |
| DisplacementWitness.VolumeIsOrphaned | src/volumegroup.c:136-138 | a run with two colliding group names after which a volume has no group above it |
| DisplacementWitness.LinkNamesAnother | src/volumegroup.c:478-494 | a run after which a block's link names a group that does not list it |
| DisplacementWitness.LinkNamesOtherVolume | src/logicalvolume.c:344-351 | a run after which a block's volume link names the path of another group's volume |
| MirrorLinks.SoundStep | src/volumegroup.c:407-436 | where nothing is displaced, every event keeps this, exactly if it is not a changed description of a disposed group that lists a block: a block's link names a group only if that group lists the block now, with the figures it gives |
| MirrorLinks.LvStep | src/volumegroup.c:400-410 | every event keeps each volume link the path of the volume that the block's udev names give, exactly if no disposed group updates a block named like it of which the live tables say otherwise |
| MirrorLinks.SoundRuns | src/volumegroup.c:388-449 | the first of these over whole runs, both directions |
| MirrorLinks.LvRuns | src/volumegroup.c:388-449 | the second over whole runs, both directions |
| MirrorLinks.FreedBlock | src/volumegroup.c:111-141 | what the last reference of a disposed group does to a block: a link to no path goes, and the volume link if the block is named like the group; nothing else changes |
| MirrorLinks.RelinkMeans | src/volumegroup.c:413-437 | a block that a group lists is linked to it with the figures listed for its device, or else for the first of its symlinks that is listed, and keeps figures that are missing there; from any other block the group takes its own link away and no other |
| DisplacedLinks.PvStep | src/volumegroup.c:478-494 | in the daemon's own step, whatever names there are, a physical volume link goes wrong exactly if a group is published without a description at the path of a linked block's group that stays, or a late description lists a block that no group without a path accounts for |
| DisplacedLinks.LvStep | src/logicalvolume.c:344-351 | a volume link goes wrong exactly if a changed reply publishes a new volume where another group's volume is that a block names, or a disposed group unlinks |
| DisplacedLinks.PvRuns | src/volumegroup.c:388-449 | the first over all runs of the daemon, both directions |
| DisplacedLinks.LvRuns | src/volumegroup.c:388-449 | the second over all runs of the daemon, both directions |
| MirrorLinks.RelinkFromComplete | src/manager.c:308-318 | whatever the order, a new block that stays unlinked is listed by no group |
| MirrorTheorems.SameGroupPath | src/volumegroup.c:478-486 | two groups share a path exactly if the escaping does not tell their names apart |
| MirrorTheorems.SameVolumePath | src/logicalvolume.c:344-351 | two volumes share a path exactly if the escaping tells neither them nor their groups apart |
| MirrorTheorems.CompleteStep | src/volumegroup.c:429-436 | from sound links, every listed block stays linked exactly if the event abandons none: whatever disposed groups do |
| MirrorTheorems.CompleteRuns | src/volumegroup.c:388-449 | the same over whole runs in which no description misleads |
| DisplacedLinks.ExactRuns | src/volumegroup.c:388-449 | in runs of the daemon whose names are apart, if nothing misnames and no block is ever listed twice, physical volume links are at all times exactly the relation of tables and blocks |
| MirrorShortcuts.SkippingIsSound | src/volumegroup.c:496-501 | skipping a repeated reply leaves tables, paths and polling as the full pass would, and the block links exactly if every block that the group lists is linked to it and every block named like it has the volume link that its table gives |
| MirrorShortcuts.SkippingInRuns | src/volumegroup.c:496-501 | in every run without double listings in which disposed groups neither mislead nor unlink, it leaves all links as the full pass would |
| MirrorShortcuts.SkippingKeepsPolledValue | src/volumegroup.c:641-657 | a polled size survives the skip and would not survive the full pass |
| MirrorShortcuts.OrderDoesNotMatter | src/manager.c:308-318 | if at most one group lists the block, every order of the hash table gives the block that a direct description gives |
| MirrorShortcuts.OrdersAgreeExactly | src/manager.c:308-318 | where groups are at different paths, all orders agree exactly if at most one group lists the block |
| MirrorShortcuts.ListReplyKeeps | src/manager.c:168-185 | the table holds exactly the listed names; groups that were there are untouched |
| MirrorShortcuts.ListReplyRemoves | src/manager.c:139-166 | a group that is not listed leaves no path, no volume and no link of any block |
| MirrorShortcuts.LateReply | src/volumegroup.c:111-141 | a changed reply that holds the last reference to a disposed group leaves links sound; live groups keep all their blocks linked exactly if none lists a block that the reply lists, and volume links exact exactly if no block named like the group has a volume |
| MirrorWitness.BlockIsAbandoned | src/volumegroup.c:429-436 | a run after which a listed block is linked to nothing |
| MirrorWitness.LateDescription | src/volumegroup.c:457-585 | a run after which a block is linked to a group on no path; the group has a volume, so no last reference clears the link |
| MirrorWitness.VolumeUnlinked | src/volumegroup.c:488-494 | a run in which an error for a group that was disposed takes the volume link to the live group of that name away |
| Batch.StorageManager.LvmUpdateDone | src/manager.c:89-107 | the update is answered; coldplug sets the timer |
| Batch.StorageManager.LvmVgUpdateDone | src/manager.c:109-118 | counting down, completing at zero |
| Batch.StorageManager.LvmUpdateFromVariant | src/manager.c:168-188 | counting up over the list, completing at once if it is empty |
| Batch.StorageManager.DelayedLvmUpdate | src/manager.c:212-221 | the timer starts an update that respects locks |
| Batch.Barrier | src/manager.c:109-188 | in every run an update completes at most once, and has exactly if its list came and each position was answered by a change; the counter is never negative |
| Batch.AnswersArrive | src/manager.c:184-184 | an awaited answer reaches the object it was asked for, under its listed name, even after disposal |
| Batch.WorldIsMirror | src/manager.c:120-189 | the mirror inside these runs is a run of the daemon's mirror, so all its theorems hold here |
| Batch.Warmplugs | src/manager.c:89-107 | warmplugs never outnumber uevents and completed coldplugs |
| Batch.WarmplugFollows | src/manager.c:89-97 | in every run, once coldplug has completed its warmplug is due or an update was started since |
| Batch.UeventIsFollowed | src/manager.c:223-231 | after a uevent an update is due or was started since |
| Batch.SilentForGood | src/volumegroup.c:488-505 | an update that got an error or a repetition never completes |
| Batch.RepetitionHangs | src/volumegroup.c:496-501 | a run in which that happens to a warmplug |
| Batch.ColdplugCompletes | src/manager.c:486-498 | on distinct names, and while no other update has reached the groups, coldplug completes exactly if every group's helper succeeded |
| Poll.StorageVolumeGroup.Poll | src/volumegroup.c:1431-1435 | a request adds an idle source |
| Poll.StorageVolumeGroup.PollInMain | src/volumegroup.c:665-677 | a pending timer turns the request into a flag, else a poll starts |
| Poll.StorageVolumeGroup.PollTimeout | src/volumegroup.c:679-693 | the flag turns into a poll |
| Poll.StorageVolumeGroup.PollNow | src/volumegroup.c:695-710 | timer, interrupt of the old helper, new helper or its failure, in this order |
| Poll.StorageVolumeGroup.PollWithVariant | src/volumegroup.c:615-661 | an answer counts only for the process that is waited for |
| Poll.InvStep | src/volumegroup.c:663-710 | every event keeps the invariant of timers, children, interrupts, applied polls and references |
| Poll.Freshness | src/volumegroup.c:625-631 | an answer is applied exactly if the helper succeeded and no newer poll has started; applied polls are in starting order |
| Poll.Interrupts | src/volumegroup.c:705-706 | no process is interrupted twice or after its end was reported, and of the living exactly the superseded ones are |
| Poll.StartsApart | src/volumegroup.c:703-703 | any two starts are a period apart for each start between them |
| Poll.WaitingForTimer | src/volumegroup.c:670-687 | references equal pending callbacks, at most one timer, and a flagged request waits for one that is due in time |
| Poll.RequestIsKept | src/volumegroup.c:665-693 | once its idle source ran, a request has led to a poll or is flagged |
| Poll.RequestIsServed | src/volumegroup.c:665-693 | and with no timer pending, or after the next timer, a poll was started since it was made |
| Poll.NoneUnasked | src/volumegroup.c:665-693 | polls started and requests that still wait are together no more than the requests there were |
| Replies.CompleteClosure.OnPublished | src/volumegroup.c:1213-1228 | a match answers with the path and disconnects, anything else changes nothing |
| Replies.CompleteClosure.OnComplete | src/volumegroup.c:1230-1244 | a failure answers with an error and disconnects, also from a freed closure; success changes nothing |
| Replies.StorageDaemon.Publish | src/daemon.c:883-884 | every connected handler sees the object |
| Replies.StorageDaemon.HandleCall | src/volumegroup.c:1279-1292 | a call adds one connected closure |
| Replies.AnsweredOnce | src/logicalvolume.c:428-458 | in every run an invocation is answered at most once exactly if its job does not fail after it was answered, else twice; it is connected exactly as long as it is unanswered |
| Replies.AnswerIsFirst | src/manager.c:633-662 | the answers at any time are that of the first event after the call that has one, and an error after a late failure: nothing is lost or made up |
| Replies.SuccessNamesObject | src/volumegroup.c:1220-1226 | any success ever given named what was asked for, at the path where it had just been exported: a group of the name, a volume of the name in that very group, or a link to the path that the volume had at that moment |
| Replies.OnlyWantedAnswers | src/logicalvolume.c:430-441 | publishing what an open call asked for answers it with the path; publishing any other object leaves it open |
| Replies.ObjectsAreHistory | src/daemon.c:832-946 | an object is at the path of its last publication unless it was unpublished since |
| Replies.FaultIsLateFailure | src/logicalvolume.c:444-458 | a freed closure is used exactly if a job fails after its object was published |
| Replies.LateFailure | src/logicalvolume.c:444-458 | a run in which that happens |
| Registry.StorageDaemon.Publish | src/daemon.c:832-887 | a skeleton is found or made, and the interface put on it |
| Registry.StorageDaemon.Unpublish | src/daemon.c:889-946 | the interface is removed or the whole object unexported, never both |
| Registry.StorageDaemon.UnpublishAll | src/daemon.c:933-943 | without an interface the whole path goes |
| Registry.RefinesAlways | src/daemon.c:832-946 | after any calls the objects hold exactly what an abstract registry holds, and a path is exported exactly if something is published there |
| Registry.TableIsHistory | src/daemon.c:832-946 | an instance is at a path exactly if it was published and nothing later displaced or removed it |
| Registry.LateUnpublish | src/daemon.c:914-929 | unpublishing what was displaced leaves its successor |
| Lifetime.Invocations.ClientCreate | src/invocation.c:214-290 | a first call enters the client and sends one note |
| Lifetime.Invocations.OnClientVanished | src/invocation.c:192-212 | a known client is taken out and one note sent |
| Lifetime.StorageDaemon.OnClientDisappeared | src/daemon.c:230-257 | the last client releases the name |
| Lifetime.StorageDaemon.OnJobCompleted | src/daemon.c:426-454 | the job is counted off |
| Lifetime.CountersCount | src/daemon.c:221-257 | notes alternate for each name; the counter is the number of clients there after the delivered notes; no assertion fails |
| Lifetime.CountPlusQueued | src/invocation.c:192-290 | counter and queued changes together are the size of the table |
| Lifetime.ClientsAreCallers | src/invocation.c:192-290 | the clients are those that called and have not vanished since |
| Lifetime.FinishedMeans | src/daemon.c:189-198 | finished is announced exactly when no job runs, no name is held and no client is there of those that the main loop was told of, after a state where that was not so; and when the name is lost in such a state |
| Lifetime.NameIsReleased | src/daemon.c:229-257 | when a daemon that does not persist and has asked for the name is told that the last client has gone, both name fields are given up, and finished is announced exactly if no job runs; nothing else gives the request up, and only the bus grants the name or takes it |
| Lifetime.FinishedTwice | src/daemon.c:200-209 | a run in which it is announced twice in a row |
| Lifetime.FinishedIsSafe | src/daemon.c:189-198 | then no job runs, no name is held, and with an empty queue no client is there |
| SpawnedJob.StorageSpawnedJob.WriteChildStdin | src/spawnedjob.c:300-330 | a part is written and the cursor moves by as much, or everything was written and the end is closed |
| SpawnedJob.StorageSpawnedJob.ChildWatchCb | src/spawnedjob.c:332-367 | the rest is read, the end reported, everything released |
| SpawnedJob.StorageSpawnedJob.ReleaseResources | src/spawnedjob.c:761-866 | child, texts, channels, sources, descriptors and handler are given up |
| SpawnedJob.StorageSpawnedJob.constructor | src/spawnedjob.c:431-513 | the three ways a job can begin |
| SpawnedJob.InputIsAccounted | src/spawnedjob.c:308-329 | written and left input are the input; an end closed early was closed after all of it |
| SpawnedJob.DescriptorsAreClosedOnce | src/spawnedjob.c:842-859 | each descriptor is in its field or was closed once, and finalization leaves none |
| SpawnedJob.FinalizationAfterExit | src/spawnedjob.c:131-151 | in every run, finalization after the exit was seen closes nothing, signals nothing and only marks the job |
| SpawnedJob.CallbacksAreSafe | src/spawnedjob.c:332-349 | no callback misses its channel or text, and none is left after finalization |
| SpawnedJob.TerminatedMeans | src/spawnedjob.c:771-798 | SIGTERM is sent exactly if the job is finalized before the exit was seen: once, never to a reaped child |
| SpawnedJob.FaultMeans | src/spawnedjob.c:215-233 | completion is emitted without texts exactly if a cancel's idle source runs after the exit |
| SpawnedJob.LateIdle | src/spawnedjob.c:215-270 | a run in which that happens |
| SpawnedJob.OutputIsReported | src/spawnedjob.c:342-362 | the exit is reported once, with all that was printed where the pipe ended |
| SpawnedJob.FailureIsReported | src/spawnedjob.c:215-233 | an idle source that runs before the exit is seen reports a failure with the output read so far; but for it and the exit nothing reports |
| SpawnedJob.IdlesCount | src/spawnedjob.c:236-270 | there is one idle source for each cancellation, and one for a job that could not be started |
| SpawnedJob.ChildIsReaped | src/spawnedjob.c:771-798 | a spawned child is watched until its end is seen, by the job or on its own, and reaped once |
| Estimator.StorageJob.AddSample | src/job.c:361-369 | the array holds the last hundred samples in order |
| Estimator.StorageJob.SetAutoEstimate | src/job.c:414-446 | the handler comes and goes, the samples stay |
| Estimator.StorageJob.NotifyProgress | src/job.c:342-405 | with estimation on, the estimate is that of the window over all notifications so far |
| Estimator.WindowSlides | src/job.c:361-369 | shifting down and appending is the window over a longer history |
| Estimator.ExactOnLine | src/job.c:371-401 | samples on a line to 1.0 give its end within a microsecond, on the side of now, and its slope for a second in bytes as the rate, from the fifth on and after any sliding |
| Estimator.FiveAreNeeded | src/job.c:371-376 | no estimate before the fifth sample, nor while two neighbours came in one microsecond |
| Estimator.AverageIsBetween | src/job.c:378-387 | the average speed lies between any bounds on the segment speeds |
| Estimator.EvenAverage | src/job.c:378-387 | with even spacing it is the overall speed |
| Estimator.EvenRate | src/job.c:389-398 | with even spacing the rate is the overall one |
| Estimator.UnevenAverage | src/job.c:378-387 | three unevenly spaced samples for which it is five times that |

## Left out

- Mirror.StorageLogicalVolume.Update: ratios, sizes of data and metadata, and flags other than
  those in `LvProps` are left out, more scalars of the same kind; so are ThinPool and Origin,
  which depend on the order within one reply, and the udev hack, which only triggers uevents.
- Mirror.StorageVolumeGroup.UpdateWithVariant: publishing takes no path from another object; the
  step with that is `Displacement.Step`, and `Displacement.SameStep` says when it is this one. The
  reference that the callback drops is not counted: if it is the last one of a disposed group,
  `Mirror.StorageManager.FreeGroup` follows.
- Mirror.StorageManager.ShowReply: the same.
- Mirror.StorageManager.LvmUpdateFromVariant: the same, for groups whose first update fails at once.
- Mirror.StorageVolumeGroup.PollWithVariant: progress that is reported to jobs
  (`update_operations`) is left out; its reference is dropped as above.
- Mirror.StorageManager.PollReply: the same.
- Mirror.StorageVolumeGroup.Dispose: one run of it; the second one is
  `Mirror.StorageManager.FreeGroup`.
- The physical volume and volume interfaces of a block are values in `StorageBlock`, not objects
  of their own; `src/physicalvolume.c` is not part of this model.
- Batch.StorageManager.LvmUpdateFromVariant: the counting only; what the same loop does to the
  groups is `Mirror.StorageManager.LvmUpdateFromVariant`, and `Batch.Step` joins the two.
- Batch.ColdplugCompletes: says nothing once another update has reached the groups, because then
  a description may come in as a repetition; `Batch.Barrier` still holds.
- Estimator.ExactOnLine: over real numbers; rounding of doubles is not modelled, and where the
  source divides by zero and gets an infinity or a NaN the model says `Undefined`.
- SpawnedJob.InputIsAccounted: counts what the channel accepted as written.
- Replies.SuccessNamesObject: for activation the model compares paths as the source does, so a volume
  that left the bus matches a link without a path.
- Replies.FaultIsLateFailure: speaks of the handlers; the thread that creates a group also reads
  the closure's device list (`src/manager.c:599-604`), which is not part of this model.
- MirrorBus.OpsLead: lists the calls as values, on the abstract registry; that the skeletons of
  `Registry.StorageDaemon` do the same is `Registry.RefinesAlways`. The classes of `Mirror` keep
  the resulting paths in their objects and do not log the calls.
- Things that are not interfaces, which `storage_daemon_publish` and `storage_daemon_unpublish`
  only complain about.
- Publishing "uniquely", which no caller asks for, and objects of jobs in the registry.
- That completion of a cancelled job happens exactly once; the code does not provide it.
- Users of clients, waiting for them, and authorization (`src/invocation.c`).
- Argument vectors of the commands, wiping of devices, `child_setup` and the helper: opaque
  input and output. What the helper prints is any well-formed value.
- Jobs in threads (`src/threadedjob.c`), option parsing and the GObject machinery.
