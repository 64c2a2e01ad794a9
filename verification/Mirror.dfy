/** The mirror as the daemon keeps it: objects whose fields the callbacks change in place
    (src/block.c, src/logicalvolume.c, src/volumegroup.c, src/manager.c). Every method is
    proved to change the state as the functions of module `MirrorState` say. */
module Mirror {
  import opened Wrappers
  import opened LvmNames
  import opened MirrorState
  import opened MirrorRuns
  import ObjectPath

  class StorageLogicalVolume {
    const name: string
    var group: StorageVolumeGroup
    var path: Option<Path>
    var needsPublish: bool
    var props: LvProps

    ghost function View(): Volume
      reads this
    {
      Volume(path, needsPublish, props)
    }

    constructor (group: StorageVolumeGroup, name: string)
      ensures this.name == name && this.group == group && View() == NEW_VOLUME
    {
      this.name := name;
      this.group := group;
      path := None;
      needsPublish := true;
      props := NO_PROPS;
    }

    method Update(group: StorageVolumeGroup, e: LvInfo)
      returns (needsPolling: bool)
      requires e.name == name
      modifies this
      ensures View() == UpdateVolume(old(View()), group.path, e)
      ensures this.group == group && needsPolling == IsThinTarget(e)
    {
      needsPolling := false;
      if e.uuid.Some? {
        props := props.(uuid := e.uuid.value);
      }
      if e.size.Some? {
        props := props.(size := e.size.value);
      }
      var kind, active := "block", false;
      if e.attr.Some? && |e.attr.value| > 6 {
        var volumeType, state, targetType := e.attr.value[0], e.attr.value[4], e.attr.value[6];
        if targetType == 't' {
          needsPolling := true;
        }
        if targetType == 't' && volumeType == 't' {
          kind := "pool";
        }
        if state == 'a' {
          active := true;
        }
      }
      props := props.(kind := kind, active := active);
      this.group := group;
      if needsPublish {
        needsPublish := false;
        var p := ObjectPath.BuildObjectPath(group.path, [name]);
        if p.Some? {
          path := p;
        }
      }
    }

    // Unpublishes itself.
    method Dispose()
      modifies this
      ensures path.None? && !needsPublish && group == old(group)
    {
      needsPublish := false;
      path := None;
    }
  }

  class StorageBlock {
    const path: Path
    const device: string
    const symlinks: seq<string>
    const dm: Option<DmNames>
    var pv: Option<PvLink>
    var lv: Option<Option<Path>>

    ghost function View(): Block
      reads this
    {
      Block(device, symlinks, dm, pv, lv)
    }

    constructor (path: Path, device: string, symlinks: seq<string>, dm: Option<DmNames>)
      ensures this.path == path && View() == Block(device, symlinks, dm, None, None)
    {
      this.path := path;
      this.device := device;
      this.symlinks := symlinks;
      this.dm := dm;
      pv := None;
      lv := None;
    }

    method UpdateLv(volume: Option<StorageLogicalVolume>)
      modifies this`lv
      ensures lv == if volume.Some? then Some(volume.value.path) else None
    {
      if volume.None? {
        if lv.Some? {
          lv := None;
        }
      } else {
        lv := Some(volume.value.path);
      }
    }

    method UpdatePv(group: Option<StorageVolumeGroup>, i: PvInfo)
      modifies this`pv
      ensures pv == if group.Some? then Some(Describe(old(pv), group.value.path, i)) else None
    {
      if group.Some? {
        var size, freeSize := 0, 0;
        if pv.Some? {
          size, freeSize := pv.value.size, pv.value.freeSize;
        }
        if i.size.Some? {
          size := i.size.value;
        }
        if i.freeSize.Some? {
          freeSize := i.freeSize.value;
        }
        pv := Some(PvLink(group.value.path, size, freeSize));
      } else if pv.Some? {
        pv := None;
      }
    }

    method Dispose()
      modifies this
      ensures pv.None? && lv.None?
    {
      pv := None;
      lv := None;
    }
  }

  class StorageVolumeGroup {
    const name: string
    const manager: StorageManager
    var path: Option<Path>
    var needPublish: bool
    var info: Option<VgInfo>
    var volumes: map<string, StorageLogicalVolume>
    var pvs: map<string, PvInfo>
    var needsPolling: bool
    var props: VgProps
    // a volume holds a reference to it; the last reference is gone
    ghost var anchored: bool
    ghost var ended: bool

    ghost predicate Valid()
      reads this`volumes, volumes.Values
    {
      forall n :: n in volumes ==> volumes[n].name == n && volumes[n].group == this
    }

    ghost function VolumeViews(): map<string, Volume>
      reads this`volumes, volumes.Values
    {
      map n | n in volumes :: volumes[n].View()
    }

    ghost function View(): Group
      reads this, volumes.Values
    {
      Group(name, path, needPublish, info, VolumeViews(), pvs, needsPolling, props, anchored, ended)
    }

    constructor (manager: StorageManager, name: string)
      ensures this.name == name && this.manager == manager && Valid() && View() == NewGroup(name)
      ensures volumes == map[]
    {
      this.name := name;
      this.manager := manager;
      path := None;
      needPublish := true;
      info := None;
      volumes := map[];
      pvs := map[];
      needsPolling := false;
      props := VgProps("", 0, 0, 0);
      anchored := false;
      ended := false;
    }

    method UpdateProps(r: VgInfo)
      modifies this`props
      ensures props == UpdateVgProps(old(props), r)
    {
      if r.uuid.Some? { props := props.(uuid := r.uuid.value); }
      if r.size.Some? { props := props.(size := r.size.value); }
      if r.freeSize.Some? { props := props.(freeSize := r.freeSize.value); }
      if r.extentSize.Some? { props := props.(extentSize := r.extentSize.value); }
    }

    method UpdateBlock(block: StorageBlock)
      modifies block
      ensures block.View() == Relink(old(block.View()), View())
    {
      if block.dm.Some? && block.dm.value.vg == name {
        var lv := block.dm.value.lv;
        block.UpdateLv(if lv in volumes then Some(volumes[lv]) else None);
      }
      var i := if block.device in pvs then Some(pvs[block.device]) else None;
      assert [block.device] + block.symlinks == [block.device] + block.symlinks[0..];
      assert ([block.device] + block.symlinks)[1..] == block.symlinks;
      if i.None? {
        var k := 0;
        while k < |block.symlinks|
          invariant 0 <= k <= |block.symlinks|
          invariant i.None? ==> FirstMatch(pvs, block.symlinks[k..]) == FirstMatch(pvs, block.symlinks)
          invariant i.Some? ==> FirstMatch(pvs, block.symlinks) == i
        {
          if block.symlinks[k] in pvs {
            i := Some(pvs[block.symlinks[k]]);
            break;
          }
          assert block.symlinks[k..][1..] == block.symlinks[k + 1..];
          k := k + 1;
        }
      }
      if i.Some? {
        block.UpdatePv(Some(this), i.value);
      } else if block.pv.Some? && block.pv.value.group == path {
        block.UpdatePv(None, PvInfo(None, None, None, ""));
      }
    }

    method UpdateOne(block: StorageBlock, ghost g: Group)
      requires View() == g
      modifies block
      ensures block.View() == Relink(old(block.View()), g) && View() == g
    {
      UpdateBlock(block);
      assert unchanged(this) && unchanged(volumes.Values);
    }

    method UpdateAllBlocks()
      requires manager.BlocksValid()
      modifies manager.blocks.Values
      ensures manager.BlockViews() == RelinkAll(old(manager.BlockViews()), View()) && View() == old(View())
    {
      ghost var g := View();
      var todo := manager.blocks.Keys;
      while todo != {}
        invariant todo <= manager.blocks.Keys
        invariant forall p :: p in manager.blocks ==>
                    manager.blocks[p].View() ==
                    if p in todo then old(manager.blocks[p].View()) else Relink(old(manager.blocks[p].View()), g)
        invariant View() == g
        decreases todo
      {
        var p :| p in todo;
        UpdateOne(manager.blocks[p], g);
        todo := todo - {p};
      }
    }

    // update_operations: a running pvmove wants polling. The progress it reports goes to jobs.
    method UpdateOperations(e: LvInfo) returns (polls: bool)
      ensures polls ==> IsPvmove(e.name)
    {
      polls := IsPvmove(e.name) && e.movePv.Some? && e.copyPercent.Some?;
    }

    method AddVolume(e: LvInfo) returns (thin: bool)
      requires Valid() && e.name !in volumes
      modifies this`volumes
      ensures Valid() && thin == IsThinTarget(e)
      ensures VolumeViews() == old(VolumeViews())[e.name := UpdateVolume(NEW_VOLUME, path, e)]
      ensures e.name in volumes && volumes == old(volumes)[e.name := volumes[e.name]] && fresh(volumes[e.name])
    {
      var volume := new StorageLogicalVolume(this, e.name);
      thin := volume.Update(this, e);
      volumes := volumes[e.name := volume];
    }

    method UpdateKnown(e: LvInfo) returns (thin: bool)
      requires Valid() && e.name in volumes
      modifies volumes[e.name]
      ensures Valid() && thin == IsThinTarget(e)
      ensures VolumeViews() == old(VolumeViews())[e.name := UpdateVolume(old(VolumeViews()[e.name]), path, e)]
    {
      thin := volumes[e.name].Update(this, e);
    }

    // One entry of the reply's list of volumes.
    method UpdateEntry(e: LvInfo) returns (polls: bool)
      requires Valid()
      modifies this`volumes, volumes.Values
      ensures Valid() && polls == Polls(e)
      ensures VolumeViews() == AddEntries(old(VolumeViews()), path, [e])
      ensures forall n :: n in old(volumes) ==> n in volumes && volumes[n] == old(volumes[n])
      ensures fresh(volumes.Values - old(volumes.Values))
    {
      polls := UpdateOperations(e);
      if IsPvmove(e.name) {
        polls := true;
      }
      OneEntry(VolumeViews(), path, e);
      if !IsVisible(e.name) {
        return;
      }
      var thin;
      if e.name !in volumes {
        thin := AddVolume(e);
      } else {
        thin := UpdateKnown(e);
      }
      polls := polls || thin;
    }

    method UpdateEntries(entries: seq<LvInfo>) returns (polls: bool)
      requires Valid()
      modifies this`volumes, volumes.Values
      ensures Valid() && polls == MirrorState.NeedsPolling(entries)
      ensures VolumeViews() == AddEntries(old(VolumeViews()), path, entries)
      ensures forall n :: n in old(volumes) ==> n in volumes && volumes[n] == old(volumes[n])
      ensures fresh(volumes.Values - old(volumes.Values))
    {
      polls := false;
      ghost var before := VolumeViews();
      var i := 0;
      while i < |entries|
        invariant 0 <= i <= |entries|
        invariant Valid()
        invariant polls == MirrorState.NeedsPolling(entries[..i])
        invariant VolumeViews() == AddEntries(before, path, entries[..i])
        invariant forall n :: n in old(volumes) ==> n in volumes && volumes[n] == old(volumes[n])
        invariant fresh(volumes.Values - old(volumes.Values))
      {
        EntriesOneMore(before, path, entries, i);
        var p := UpdateEntry(entries[i]);
        polls := polls || p;
        i := i + 1;
      }
      assert entries[..i] == entries;
    }

    method DropVolume(n: string)
      requires Valid() && n in volumes
      modifies this`volumes, volumes[n]
      ensures Valid() && volumes == old(volumes) - {n}
      ensures old(volumes[n]).path.None? && old(volumes[n]).group == this
      ensures forall m :: m in volumes ==> volumes[m].View() == old(volumes[m].View())
    {
      volumes[n].Dispose();
      volumes := volumes - {n};
    }

    // Volumes that the reply does not list unpublish themselves and go.
    method RemoveVanished(listed: set<string>)
      requires Valid()
      modifies this`volumes, volumes.Values
      ensures Valid()
      ensures forall n :: n in volumes <==> n in old(volumes) && n in listed
      ensures forall n :: n in volumes ==> volumes[n] == old(volumes[n]) && volumes[n].View() == old(volumes[n].View())
      ensures forall n :: n in old(volumes) && n !in listed ==> old(volumes[n]).path.None?
    {
      var todo := volumes.Keys;
      ghost var before := volumes;
      while todo != {}
        invariant todo <= before.Keys
        invariant forall n :: n in volumes <==> n in before && (n in todo || n in listed)
        invariant forall n :: n in volumes ==> volumes[n] == before[n]
        invariant Valid()
        invariant forall n :: n in volumes ==> before[n].View() == old(before[n].View())
        invariant forall n :: n in before && n !in listed && n !in todo ==> before[n].path.None?
        decreases todo
      {
        var n :| n in todo;
        if n !in listed {
          DropVolume(n);
        }
        todo := todo - {n};
      }
    }

    method RebuildPvs(list: seq<PvInfo>)
      modifies this`pvs
      ensures pvs == PvTable(list)
    {
      pvs := map[];
      var i := 0;
      while i < |list|
        invariant 0 <= i <= |list|
        invariant pvs == PvTable(list[..i])
      {
        assert list[..i + 1][..i] == list[..i];
        if list[i].device.Some? {
          pvs := pvs[list[i].device.value := list[i]];
        }
        i := i + 1;
      }
      assert list[..i] == list;
    }

    // New names, changed ones, vanished ones.
    method ReconcileVolumes(entries: seq<LvInfo>) returns (polls: bool)
      requires Valid()
      modifies this`volumes, volumes.Values
      ensures Valid() && polls == MirrorState.NeedsPolling(entries)
      ensures VolumeViews() == VolumesAfter(old(VolumeViews()), path, entries)
      ensures forall n :: n in old(volumes) && n in volumes ==> volumes[n] == old(volumes[n])
      ensures forall n :: n in old(volumes) && n !in volumes ==> old(volumes[n]).path.None?
      ensures fresh(volumes.Values - old(volumes.Values))
    {
      polls := UpdateEntries(entries);
      ghost var all, added := volumes, VolumeViews();
      RemoveVanished(VisibleNames(entries));
      assert forall n :: n in volumes ==> volumes[n].View() == added[n];
      assert forall n :: n in old(volumes) && n !in volumes ==> all[n] == old(volumes[n]);
    }

    method RefreshTables(r: VgInfo)
      requires Valid()
      modifies this`volumes, this`pvs, this`needsPolling, volumes.Values
      ensures Valid()
      ensures VolumeViews() == VolumesAfter(old(VolumeViews()), path, r.lvs)
      ensures pvs == PvTable(r.pvs) && needsPolling == MirrorState.NeedsPolling(r.lvs)
      ensures forall n :: n in old(volumes) && n in volumes ==> volumes[n] == old(volumes[n])
      ensures forall n :: n in old(volumes) && n !in volumes ==> old(volumes[n]).path.None?
      ensures fresh(volumes.Values - old(volumes.Values))
    {
      needsPolling := ReconcileVolumes(r.lvs);
      RebuildPvs(r.pvs);
    }

    method NoteReply(r: VgInfo)
      requires Valid()
      modifies this`info, this`anchored
      ensures Valid() && View() == old(View()).(info := Some(r), anchored := old(anchored) || VisibleNames(r.lvs) != {})
    {
      info := Some(r);
      anchored := anchored || VisibleNames(r.lvs) != {};
      assert VolumeViews() == old(VolumeViews());
    }

    method UpdateTables(r: VgInfo)
      requires Valid()
      modifies this`info, this`volumes, this`pvs, this`needsPolling, this`anchored, volumes.Values
      ensures Valid()
      ensures View() == FullPass(old(View()), r)
      ensures forall n :: n in old(volumes) && n in volumes ==> volumes[n] == old(volumes[n])
      ensures forall n :: n in old(volumes) && n !in volumes ==> old(volumes[n]).path.None?
      ensures fresh(volumes.Values - old(volumes.Values))
    {
      NoteReply(r);
      ghost var noted := View();
      RefreshTables(r);
      assert View() == noted.(volumes := VolumeViews(), pvs := pvs, needsPolling := needsPolling);
    }

    // The part of the update that a repeated reply skips.
    method TakeIn(r: VgInfo)
      requires Valid() && manager.BlocksValid()
      modifies this`info, this`volumes, this`pvs, this`needsPolling, this`anchored, volumes.Values, manager.blocks.Values
      ensures Valid()
      ensures View() == FullPass(old(View()), r)
      ensures manager.BlockViews() == RelinkAll(old(manager.BlockViews()), View())
      ensures forall n :: n in old(volumes) && n in volumes ==> volumes[n] == old(volumes[n])
      ensures forall n :: n in old(volumes) && n !in volumes ==> old(volumes[n]).path.None?
      ensures fresh(volumes.Values - old(volumes.Values))
    {
      ghost var start, blocks := View(), manager.BlockViews();
      UpdateTables(r);
      assert unchanged(manager`blocks) && unchanged(manager.blocks.Values);
      assert View() == FullPass(start, r) && manager.BlockViews() == blocks;
      UpdateAllBlocks();
      assert View() == FullPass(start, r);
    }

    method PublishOnce()
      requires Valid()
      modifies this`needPublish, this`path
      ensures View() == Published(old(View()))
    {
      if needPublish {
        needPublish := false;
        path := ObjectPath.BuildObjectPath(Some(LVM_BASE), [name]);
      }
    }

    /** The reply to a full update. `done` tells whether the caller's callback runs. */
    method UpdateWithVariant(reply: Reply) returns (done: bool)
      requires Valid() && manager.BlocksValid()
      modifies this, volumes.Values, manager.blocks.Values
      ensures Valid()
      ensures View() == Updated(old(View()), reply)
      ensures done == IsChange(old(View()), reply)
      ensures manager.BlockViews() == if done then RelinkAll(old(manager.BlockViews()), View()) else old(manager.BlockViews())
      ensures forall n :: n in old(volumes) && n in volumes ==> volumes[n] == old(volumes[n])
      ensures forall n :: n in old(volumes) && n !in volumes ==> old(volumes[n]).path.None?
      ensures fresh(volumes.Values - old(volumes.Values))
    {
      Receive(reply);
      assert unchanged(manager`blocks) && unchanged(manager.blocks.Values);
      if reply.Failure? || info == Some(reply.value) {
        return false;
      }
      TakeIn(reply.value);
      done := true;
    }

    method Receive(reply: Reply)
      requires Valid()
      modifies this`props, this`needPublish, this`path
      ensures Valid() && View() == if reply.Success? then Received(old(View()), reply.value) else Published(old(View()))
    {
      if reply.Success? {
        UpdateProps(reply.value);
      }
      PublishOnce();
    }

    method PollEntry(e: LvInfo)
      requires Valid()
      modifies volumes.Values
      ensures Valid()
      ensures VolumeViews() == PollEntries(old(VolumeViews()), path, [e])
    {
      OnePolledEntry(VolumeViews(), path, e);
      var polls := UpdateOperations(e);
      if e.name in volumes {
        var thin := UpdateKnown(e);
      }
    }

    /** A poll result that is accepted updates the volumes it knows, and nothing else. */
    method PollWithVariant(r: VgInfo)
      requires Valid()
      modifies this`props, volumes.Values
      ensures Valid()
      ensures View() == Polled(old(View()), r)
    {
      ghost var before := VolumeViews();
      UpdateProps(r);
      var i := 0;
      while i < |r.lvs|
        invariant 0 <= i <= |r.lvs|
        invariant Valid() && props == UpdateVgProps(old(props), r)
        invariant VolumeViews() == PollEntries(before, path, r.lvs[..i])
      {
        PolledOneMore(before, path, r.lvs, i);
        PollEntry(r.lvs[i]);
        i := i + 1;
      }
      assert r.lvs[..i] == r.lvs;
      assert VolumeViews() == PollEntries(before, path, r.lvs);
    }

    // All volumes unpublish themselves.
    method DropAllVolumes()
      requires Valid()
      modifies this`volumes, volumes.Values
      ensures volumes == map[]
      ensures forall n :: n in old(volumes) ==> old(volumes[n]).path.None?
    {
      var todo := volumes.Keys;
      while todo != {}
        invariant volumes == old(volumes) && todo <= volumes.Keys
        invariant forall n :: n in volumes && n !in todo ==> volumes[n].path.None?
        decreases todo
      {
        var n :| n in todo;
        volumes[n].Dispose();
        todo := todo - {n};
      }
      volumes := map[];
    }

    method ClearTables()
      requires Valid()
      modifies this`needPublish, this`volumes, this`pvs, this`info, volumes.Values
      ensures volumes == map[] && View() == Cleared(old(View()))
      ensures forall n :: n in old(volumes) ==> old(volumes[n]).path.None?
    {
      needPublish := false;
      DropAllVolumes();
      pvs := map[];
      info := None;
    }

    method ClearAll()
      requires Valid() && manager.BlocksValid()
      modifies this, volumes.Values, manager.blocks.Values
      ensures volumes == map[] && View() == Cleared(old(View()))
      ensures forall n :: n in old(volumes) ==> old(volumes[n]).path.None?
      ensures manager.BlockViews() == RelinkAll(old(manager.BlockViews()), View())
    {
      ClearTables();
      assert unchanged(manager`blocks) && unchanged(manager.blocks.Values);
      UpdateAllBlocks();
    }

    /** Blocks are cleared while the group still has its path; the path goes last. */
    method Dispose()
      requires Valid() && manager.BlocksValid()
      modifies this, volumes.Values, manager.blocks.Values
      ensures Valid() && volumes == map[]
      ensures View() == Disposed(old(View()))
      ensures forall n :: n in old(volumes) ==> old(volumes[n]).path.None?
      ensures manager.BlockViews() == RelinkAll(old(manager.BlockViews()), Cleared(old(View())))
    {
      ClearAll();
      path := None;
    }
  }

  lemma OneEntry(volumes: map<string, Volume>, path: Option<Path>, e: LvInfo)
    ensures AddEntries(volumes, path, [e]) ==
            if !IsVisible(e.name) then volumes
            else volumes[e.name := UpdateVolume(if e.name in volumes then volumes[e.name] else NEW_VOLUME, path, e)]
  {
    assert [e][..0] == [];
    assert AddEntries(volumes, path, [e][..0]) == volumes;
  }

  lemma OnePolledEntry(volumes: map<string, Volume>, path: Option<Path>, e: LvInfo)
    ensures PollEntries(volumes, path, [e]) ==
            if e.name in volumes then volumes[e.name := UpdateVolume(volumes[e.name], path, e)] else volumes
  {
    assert [e][..0] == [];
    assert PollEntries(volumes, path, [e][..0]) == volumes;
  }

  lemma PolledOneMore(volumes: map<string, Volume>, path: Option<Path>, entries: seq<LvInfo>, i: nat)
    requires i < |entries|
    ensures PollEntries(volumes, path, entries[..i + 1]) == PollEntries(PollEntries(volumes, path, entries[..i]), path, [entries[i]])
  {
    assert entries[..i + 1][..i] == entries[..i];
    OnePolledEntry(PollEntries(volumes, path, entries[..i]), path, entries[i]);
  }

  lemma EntriesOneMore(volumes: map<string, Volume>, path: Option<Path>, entries: seq<LvInfo>, i: nat)
    requires i < |entries|
    ensures AddEntries(volumes, path, entries[..i + 1]) == AddEntries(AddEntries(volumes, path, entries[..i]), path, [entries[i]])
    ensures MirrorState.NeedsPolling(entries[..i + 1]) <==> MirrorState.NeedsPolling(entries[..i]) || Polls(entries[i])
  {
    assert entries[..i + 1][..i] == entries[..i];
    OneEntry(AddEntries(volumes, path, entries[..i]), path, entries[i]);
    PollingOneMore(entries, i);
  }

  lemma PollingOneMore(entries: seq<LvInfo>, i: nat)
    requires i < |entries|
    ensures MirrorState.NeedsPolling(entries[..i + 1]) <==> MirrorState.NeedsPolling(entries[..i]) || Polls(entries[i])
  {
    var longer := entries[..i + 1];
    assert forall k :: 0 <= k < i ==> entries[..i][k] == longer[k];
    assert longer[i] == entries[i];
  }

  /** `groups` is the table of the groups that the last list named. A group that was disposed is
      in `retired`, for as long as the model is interested in what replies do to it. */
  class StorageManager {
    var groups: map<string, StorageVolumeGroup>
    var blocks: map<Path, StorageBlock>
    ghost var retired: seq<StorageVolumeGroup>
    // every group and every volume that was ever created
    ghost var family: set<StorageVolumeGroup>
    ghost var members: set<StorageLogicalVolume>

    ghost predicate BlocksValid()
      reads this`blocks, blocks.Values
    {
      forall p :: p in blocks ==> blocks[p].path == p
    }

    ghost function BlockViews(): map<Path, Block>
      reads this`blocks, blocks.Values
    {
      map p | p in blocks :: blocks[p].View()
    }

    ghost predicate LiveValid()
      reads this`groups, this`family
    {
      forall n :: n in groups ==> groups[n] in family && groups[n].name == n
    }

    ghost predicate DeadValid()
      reads this`retired, this`family
    {
      && (forall i :: 0 <= i < |retired| ==> retired[i] in family)
      && (forall i, j :: 0 <= i < j < |retired| ==> retired[i] != retired[j])
    }

    // All groups are in order, and no two of them share a volume.
    ghost predicate FamilyValid()
      reads this`family, this`members, family, members
    {
      forall g :: g in family ==> g.manager == this && g.volumes.Values <= members && g.Valid()
    }

    ghost predicate GroupsReadable()
      reads this`groups, this`family, this`members, family, members
    {
      LiveValid() && FamilyValid()
    }

    ghost predicate TablesValid()
      reads this`groups, this`retired, this`family
    {
      LiveValid() && DeadValid() && forall n :: n in groups ==> groups[n] !in retired
    }

    ghost predicate Valid()
      reads this, family, members, blocks.Values
    {
      BlocksValid() && TablesValid() && FamilyValid()
    }

    ghost function LiveViews(): map<string, Group>
      requires GroupsReadable()
      reads this`groups, this`family, this`members, family, members
    {
      map n | n in groups :: groups[n].View()
    }

    ghost function DeadViews(): seq<Group>
      requires DeadValid() && FamilyValid()
      reads this`retired, this`family, this`members, family, members
    {
      ViewsOf(retired)
    }

    ghost function ViewsOf(gs: seq<StorageVolumeGroup>): (views: seq<Group>)
      requires FamilyValid() && forall i :: 0 <= i < |gs| ==> gs[i] in family
      reads this`family, this`members, family, members
      ensures |views| == |gs| && forall i :: 0 <= i < |gs| ==> views[i] == gs[i].View()
    {
      if gs == [] then [] else ViewsOf(gs[..|gs| - 1]) + [gs[|gs| - 1].View()]
    }

    ghost function World(): World
      requires Valid()
      reads this, family, members, blocks.Values
    {
      MirrorState.World(LiveViews(), DeadViews(), BlockViews())
    }

    // The same, entry by entry.
    ghost predicate Looks(w: World)
      requires Valid()
      reads this, family, members, blocks.Values
    {
      && groups.Keys == w.live.Keys && (forall n :: n in groups ==> groups[n].View() == w.live[n])
      && |retired| == |w.dead| && (forall i :: 0 <= i < |retired| ==> retired[i].View() == w.dead[i])
      && BlockViews() == w.blocks
    }

    lemma LooksMeans(w: World)
      requires Valid()
      ensures Looks(w) <==> World() == w
    {
      if Looks(w) {
        assert LiveViews() == w.live && DeadViews() == w.dead;
      }
    }

    ghost predicate IsAt(t: Target, g: StorageVolumeGroup)
      reads this`groups, this`retired
    {
      && (t.Live? ==> t.name in groups && groups[t.name] == g)
      && (t.Dead? ==> t.index < |retired| && retired[t.index] == g)
    }

    // A callback that holds a reference to g may run.
    ghost predicate Holds(t: Target, g: StorageVolumeGroup)
      reads this`groups, this`retired, g`ended
    {
      IsAt(t, g) && (t.Dead? ==> !g.ended)
    }

    constructor ()
      ensures Valid() && World() == EMPTY
    {
      groups := map[];
      blocks := map[];
      retired := [];
      family := {};
      members := {};
    }

    // Groups do not share volumes.
    lemma VolumesApart(g: StorageVolumeGroup)
      requires Valid() && g in family
      ensures forall h, n :: h in family && h != g && n in h.volumes ==> h.volumes[n] !in g.volumes.Values
    {
      forall h, n | h in family && h != g && n in h.volumes
        ensures h.volumes[n] !in g.volumes.Values
      {
        assert h.Valid() && g.Valid();
      }
    }

    // So what happens to one leaves the others alone.
    method UpdateAlone(g: StorageVolumeGroup, reply: Reply) returns (done: bool)
      requires Valid() && g in family
      modifies g, g.volumes.Values, blocks.Values
      ensures ValidBut(g) && fresh(g.volumes.Values - old(g.volumes.Values))
      ensures g.View() == Updated(old(g.View()), reply) && done == IsChange(old(g.View()), reply)
      ensures forall h :: h in family && h != g ==> h.View() == old(h.View())
      ensures BlockViews() == if done then RelinkAll(old(BlockViews()), g.View()) else old(BlockViews())
    {
      VolumesApart(g);
      done := g.UpdateWithVariant(reply);
      assert unchanged(family - {g}) && unchanged(members - old(g.volumes.Values));
      forall h | h in family && h != g
        ensures h.Valid() && h.View() == old(h.View())
      {
        assert unchanged(h) && unchanged(h.volumes.Values);
        assert h.VolumeViews() == old(h.VolumeViews());
      }
    }

    method UpdateGroup(g: StorageVolumeGroup, reply: Reply) returns (done: bool)
      requires Valid() && g in family
      modifies this`members, g, g.volumes.Values, blocks.Values
      ensures Valid() && fresh(members - old(members))
      ensures g.View() == Updated(old(g.View()), reply) && done == IsChange(old(g.View()), reply)
      ensures forall h :: h in family && h != g ==> h.View() == old(h.View())
      ensures BlockViews() == if done then RelinkAll(old(BlockViews()), g.View()) else old(BlockViews())
    {
      done := UpdateAlone(g, reply);
      Admit(g);
    }

    // Valid, but for new volumes of g.
    ghost predicate ValidBut(g: StorageVolumeGroup)
      reads this, family, members, blocks.Values, g, g.volumes.Values
    {
      && BlocksValid() && TablesValid() && g in family && g.manager == this && g.Valid()
      && forall h :: h in family && h != g ==> h.manager == this && h.volumes.Values <= members && h.Valid()
    }

    method Admit(g: StorageVolumeGroup)
      requires ValidBut(g)
      modifies this`members
      ensures Valid() && members == old(members) + g.volumes.Values
      ensures BlockViews() == old(BlockViews()) && forall h :: h in family ==> h.View() == old(h.View())
    {
      members := members + g.volumes.Values;
    }

    method PollGroup(g: StorageVolumeGroup, r: VgInfo)
      requires Valid() && g in family
      modifies g`props, g.volumes.Values
      ensures Valid()
      ensures g.View() == Polled(old(g.View()), r)
      ensures forall h :: h in family && h != g ==> h.View() == old(h.View())
      ensures BlockViews() == old(BlockViews())
    {
      VolumesApart(g);
      g.PollWithVariant(r);
      forall h | h in family && h != g
        ensures h.Valid() && h.View() == old(h.View())
      {
        assert unchanged(h) && unchanged(h.volumes.Values);
        assert h.VolumeViews() == old(h.VolumeViews());
      }
    }

    method DisposeGroup(g: StorageVolumeGroup)
      requires Valid() && g in family
      modifies g, g.volumes.Values, blocks.Values
      ensures Valid() && g.volumes == map[]
      ensures g.View() == Disposed(old(g.View()))
      ensures forall h :: h in family && h != g ==> h.View() == old(h.View())
      ensures forall v :: v in old(g.volumes.Values) ==> v.path.None?
      ensures BlockViews() == RelinkAll(old(BlockViews()), Cleared(old(g.View())))
    {
      VolumesApart(g);
      g.Dispose();
      forall h | h in family && h != g
        ensures h.Valid() && h.View() == old(h.View())
      {
        assert unchanged(h) && unchanged(h.volumes.Values);
        assert h.VolumeViews() == old(h.VolumeViews());
      }
    }

    // The tables after the group of that name changed.
    lemma StoredLooks(w: World, name: string)
      requires Valid() && name in groups && groups.Keys == w.live.Keys && |retired| == |w.dead|
      requires forall n :: n in groups && groups[n] != groups[name] ==> groups[n].View() == w.live[n]
      requires forall i :: 0 <= i < |retired| && retired[i] != groups[name] ==> retired[i].View() == w.dead[i]
      ensures Looks(MirrorState.World(w.live[name := groups[name].View()], w.dead, BlockViews()))
    {
      assert forall n :: n in groups && n != name ==> groups[n] != groups[name];
      assert forall i :: 0 <= i < |retired| ==> retired[i] != groups[name];
    }

    // The tables after one group changed.
    lemma StoredGroup(w: World, t: Target, g: StorageVolumeGroup)
      requires Valid() && IsAt(t, g) && Known(w, t)
      requires w.live.Keys == groups.Keys && |w.dead| == |retired|
      requires forall n :: n in groups && groups[n] != g ==> w.live[n] == groups[n].View()
      requires forall i :: 0 <= i < |retired| && retired[i] != g ==> w.dead[i] == retired[i].View()
      ensures LiveViews() == Store(w, t, g.View()).live && DeadViews() == Store(w, t, g.View()).dead
    {
      match t
      case Live(n) =>
        assert forall m :: m in groups && m != n ==> groups[m] != g;
      case Dead(i) =>
        assert forall m :: m in groups ==> groups[m] != g;
        assert forall j :: 0 <= j < |retired| && j != i ==> retired[j] != g;
    }

    /** A full reply, also one that comes after its group was disposed. */
    method ShowReply(ghost t: Target, g: StorageVolumeGroup, reply: Reply) returns (done: bool)
      requires Valid() && Holds(t, g)
      modifies this`members, g, g.volumes.Values, blocks.Values
      ensures Valid() && Enabled(old(World()), Show(t, reply))
      ensures World() == Step(old(World()), Show(t, reply))
      ensures done == IsChange(old(g.View()), reply)
      ensures fresh(members - old(members))
    {
      ghost var w := World();
      assert Find(w, t) == g.View();
      done := UpdateGroup(g, reply);
      StoredGroup(w, t, g);
      ShownStep(w, World(), t, reply);
    }

    /** The result of a poll that is still wanted. */
    method PollReply(ghost t: Target, g: StorageVolumeGroup, r: VgInfo)
      requires Valid() && Holds(t, g)
      modifies g`props, g.volumes.Values
      ensures Valid() && Enabled(old(World()), Poll(t, r))
      ensures World() == Step(old(World()), Poll(t, r))
    {
      ghost var w := World();
      assert Find(w, t) == g.View();
      PollGroup(g, r);
      StoredGroup(w, t, g);
    }

    method End(g: StorageVolumeGroup)
      requires Valid() && g in family
      modifies g`ended
      ensures Valid() && g.View() == old(g.View()).(ended := true)
      ensures forall h :: h in family && h != g ==> h.View() == old(h.View())
      ensures BlockViews() == old(BlockViews())
    {
      g.ended := true;
      assert forall h :: h in family && h != g ==> unchanged(h) && unchanged(h.volumes.Values);
    }

    /** The last reference to a group goes some time after it was disposed. It is disposed a
        second time, now without a path, and freed. */
    method FreeGroup(ghost i: nat, g: StorageVolumeGroup)
      requires Valid() && Holds(Dead(i), g) && !g.anchored && g.path.None?
      modifies g, g.volumes.Values, blocks.Values
      ensures Valid() && Enabled(old(World()), LastUnref(i))
      ensures World() == Step(old(World()), LastUnref(i))
    {
      ghost var w := World();
      assert Find(w, Dead(i)) == g.View();
      DisposeGroup(g);
      End(g);
      StoredGroup(w, Dead(i), g);
      FreedStep(w, World(), i);
    }

    method DisposeListed(n: string, ghost w: World)
      requires Valid() && n in groups && Looks(w)
      modifies family, members, blocks.Values
      ensures Valid() && Looks(MirrorState.World(w.live[n := Disposed(w.live[n])], w.dead, RelinkAll(w.blocks, Cleared(w.live[n]))))
    {
      DisposeGroup(groups[n]);
      StoredLooks(w, n);
    }

    // The table lets go of the group.
    method Retire(n: string)
      requires Valid() && n in groups
      modifies this`groups, this`retired
      ensures Valid() && groups == old(groups) - {n} && retired == old(retired) + [old(groups[n])]
      ensures forall h :: h in family ==> h.View() == old(h.View())
      ensures BlockViews() == old(BlockViews())
    {
      var g := groups[n];
      groups := groups - {n};
      retired := retired + [g];
    }

    method RetireListed(n: string, ghost w: World)
      requires Valid() && n in groups && Looks(w)
      modifies this`groups, this`retired
      ensures Valid() && groups == old(groups) - {n}
      ensures Looks(MirrorState.World(w.live - {n}, w.dead + [w.live[n]], w.blocks))
    {
      Retire(n);
    }

    method RemoveGroup(n: string, ghost w: World)
      requires Valid() && n in groups && Looks(w)
      modifies this`groups, this`retired, family, members, blocks.Values
      ensures Valid() && groups == old(groups) - {n} && Looks(Remove(w, n))
    {
      DisposeListed(n, w);
      ghost var w1 := MirrorState.World(w.live[n := Disposed(w.live[n])], w.dead, RelinkAll(w.blocks, Cleared(w.live[n])));
      RetiredStep(w, w1, n);
      RetireListed(n, w1);
    }

    method IsListed(names: seq<string>, n: string) returns (found: bool)
      ensures found <==> n in names
    {
      found := false;
      var i := 0;
      while i < |names|
        invariant 0 <= i <= |names|
        invariant !found && n !in names[..i]
      {
        if names[i] == n {
          return true;
        }
        i := i + 1;
      }
    }

    method RemoveNamed(n: string, ghost now: World, ghost was: map<string, StorageVolumeGroup>)
      requires Valid() && n in groups && World() == now && Extends(was, groups)
      modifies this`groups, this`retired, family, members, blocks.Values
      ensures Valid() && World() == Remove(now, n) && Extends(was, groups) && groups == old(groups) - {n}
    {
      LooksMeans(now);
      RemoveGroup(n, now);
      LooksMeans(Remove(now, n));
    }

    method SweepOne(names: seq<string>, n: string, ghost w: World, ghost todo: set<string>, ghost gone: seq<string>, ghost now: World,
                    ghost was: map<string, StorageVolumeGroup>)
      returns (ghost further: seq<string>, ghost next: World)
      requires Valid() && n in todo && todo <= groups.Keys && Sweep(w, names, todo, gone, now) && World() == now && Extends(was, groups)
      modifies this`groups, this`retired, family, members, blocks.Values
      ensures Valid() && Sweep(w, names, todo - {n}, further, next) && World() == next
      ensures todo - {n} <= groups.Keys && Extends(was, groups)
    {
      SweepNext(w, names, todo, gone, now, n);
      further, next := gone, now;
      var found := IsListed(names, n);
      if !found {
        RemoveNamed(n, now, was);
        further, next := gone + [n], Remove(now, n);
      }
    }

    // The first loop of the list reply: it removes entries of the table that it walks.
    method RemoveObsolete(names: seq<string>) returns (ghost gone: seq<string>)
      requires Valid()
      modifies this`groups, this`retired, family, members, blocks.Values
      ensures Valid() && Enabled(old(World()), List(names, gone, {}))
      ensures World() == RemoveAll(old(World()), gone)
      ensures Extends(old(groups), groups)
    {
      ghost var w := World();
      ghost var now;
      gone, now := SweepAll(names, w, groups);
      SweepEnd(w, names, gone, now);
    }

    method SweepAll(names: seq<string>, ghost w: World, ghost was: map<string, StorageVolumeGroup>)
      returns (ghost gone: seq<string>, ghost now: World)
      requires Valid() && World() == w && Extends(was, groups)
      modifies this`groups, this`retired, family, members, blocks.Values
      ensures Valid() && Sweep(w, names, {}, gone, now) && World() == now && Extends(was, groups)
    {
      gone, now := [], w;
      var todo := groups.Keys;
      SweepStart(w, names);
      while todo != {}
        invariant Valid() && todo <= groups.Keys && World() == now && Extends(was, groups)
        invariant Sweep(w, names, todo, gone, now)
        decreases todo
      {
        var n :| n in todo;
        gone, now := SweepOne(names, n, w, todo, gone, now, was);
        todo := todo - {n};
      }
    }

    method Adopt(g: StorageVolumeGroup)
      requires Valid() && g.manager == this && g.volumes == map[] && g !in family
      modifies this`family
      ensures Valid() && family == old(family) + {g}
    {
      family := family + {g};
    }

    method Enlist(g: StorageVolumeGroup)
      requires Valid() && g.name !in groups && g in family && g !in retired
      modifies this`groups
      ensures Valid() && groups == old(groups)[g.name := g]
    {
      groups := groups[g.name := g];
    }

    method CreateGroup(name: string)
      requires Valid() && name !in groups
      modifies this`groups, this`family
      ensures Valid() && name in groups && groups == old(groups)[name := groups[name]]
      ensures fresh(groups[name]) && family == old(family) + {groups[name]} && groups[name].View() == NewGroup(name)
      ensures forall h :: h in old(family) ==> h.View() == old(h.View())
    {
      var g := new StorageVolumeGroup(this, name);
      Adopt(g);
      Enlist(g);
    }

    method EnsureGroup(name: string, ghost w: World)
      requires Valid() && Looks(w)
      modifies this`groups, this`family
      ensures Valid() && name in groups && fresh(family - old(family)) && members == old(members)
      ensures Extends(groups, old(groups))
      ensures Looks(w.(live := w.live[name := Listing(w.live, name, false)]))
    {
      if name in groups {
        ListingKnown(w, name);
      } else {
        CreateListed(name, w);
      }
    }

    method CreateListed(name: string, ghost w: World)
      requires Valid() && Looks(w) && name !in groups
      modifies this`groups, this`family
      ensures Valid() && name in groups && groups == old(groups)[name := groups[name]] && fresh(family - old(family))
      ensures Looks(w.(live := w.live[name := NewGroup(name)]))
    {
      CreateGroup(name);
    }

    // An update for which the helper could not be started ends with an error at once.
    method FailUpdate(name: string, ghost w: World)
      requires Valid() && name in groups && Looks(w)
      modifies this`members, family, members, blocks.Values
      ensures Valid() && fresh(members - old(members)) && groups == old(groups) && family == old(family)
      ensures Looks(w.(live := w.live[name := Published(w.live[name])]))
    {
      FailedUpdate(w.live[name]);
      var done := UpdateGroup(groups[name], Failure(""));
      StoredLooks(w, name);
    }

    // The helper for a listed name either starts, and replies later, or fails.
    method ListOne(name: string, fails: bool, ghost w: World)
      requires Valid() && Looks(w)
      modifies this`groups, this`family, this`members, family, members, blocks.Values
      ensures Valid() && fresh(family - old(family)) && fresh(members - old(members)) && Extends(groups, old(groups))
      ensures Looks(w.(live := w.live[name := Listing(w.live, name, fails)]))
    {
      EnsureGroup(name, w);
      if fails {
        ListedTwice(w, name);
        FailUpdate(name, w.(live := w.live[name := Listing(w.live, name, false)]));
      }
    }

    method ListNext(name: string, fails: bool, ghost w: World, ghost was: map<string, StorageVolumeGroup>)
      requires Valid() && World() == w && Extends(groups, was)
      modifies this`groups, this`family, this`members, family, members, blocks.Values
      ensures Valid() && fresh(family - old(family)) && fresh(members - old(members)) && Extends(groups, was)
      ensures World() == w.(live := w.live[name := Listing(w.live, name, fails)])
    {
      LooksMeans(w);
      ghost var before := groups;
      ListOne(name, fails, w);
      ExtendsTwice(groups, before, was);
      LooksMeans(w.(live := w.live[name := Listing(w.live, name, fails)]));
    }

    method ListAt(names: seq<string>, failed: set<nat>, ghost w: World, ghost was: map<string, StorageVolumeGroup>, i: nat)
      requires i < |names|
      requires Valid() && World() == w.(live := AddGroups(w.live, names[..i], failed)) && Extends(groups, was)
      modifies this`groups, this`family, this`members, family, members, blocks.Values
      ensures Valid() && fresh(family - old(family)) && fresh(members - old(members)) && Extends(groups, was)
      ensures World() == w.(live := AddGroups(w.live, names[..i + 1], failed))
    {
      ListedOneMore(w, names, failed, i);
      ListNext(names[i], i in failed, w.(live := AddGroups(w.live, names[..i], failed)), was);
    }

    // The second loop of the list reply.
    method ListAll(names: seq<string>, failed: set<nat>, ghost w: World, ghost was: map<string, StorageVolumeGroup>)
      requires Valid() && World() == w && Extends(groups, was)
      modifies this`groups, this`family, this`members, family, members, blocks.Values
      ensures Valid() && World() == w.(live := AddGroups(w.live, names, failed)) && Extends(groups, was)
    {
      var i := 0;
      ListedEnds(w, names, failed);
      while i < |names|
        invariant 0 <= i <= |names|
        invariant Valid() && fresh(family - old(family)) && fresh(members - old(members)) && Extends(groups, was)
        invariant World() == w.(live := AddGroups(w.live, names[..i], failed))
      {
        ListAt(names, failed, w, was, i);
        i := i + 1;
      }
    }

    /** The reply to `list`: groups that are not named go, the named ones are there. A group
        that was there and is named again stays the same object. */
    method LvmUpdateFromVariant(names: seq<string>, failed: set<nat>) returns (ghost gone: seq<string>)
      requires Valid()
      modifies this`groups, this`retired, this`family, this`members, family, members, blocks.Values
      ensures Valid() && Enabled(old(World()), List(names, gone, failed))
      ensures World() == Step(old(World()), List(names, gone, failed))
      ensures forall n :: n in old(groups) && n in names ==> n in groups && groups[n] == old(groups[n])
    {
      ghost var w := World();
      assert w.live.Keys == groups.Keys;
      gone := RemoveObsolete(names);
      assert RemoveAll(w, gone).live.Keys == groups.Keys;
      ListedStep(w, names, gone, failed);
      ghost var kept := groups;
      ListAll(names, failed, RemoveAll(w, gone), kept);
    }

    method WalkOne(block: StorageBlock, n: string,
                   ghost live: map<string, Group>, ghost start: Block, ghost todo: set<string>, ghost order: seq<string>)
      requires GroupsReadable() && n in groups && n in todo && LiveViews() == live
      requires Walk(live, start, todo, order, block.View())
      modifies block
      ensures GroupsReadable() && LiveViews() == live
      ensures Walk(live, start, todo - {n}, order + [n], block.View())
    {
      WalkNext(live, start, todo, order, block.View(), n);
      groups[n].UpdateBlock(block);
      assert unchanged(family) && unchanged(members);
    }

    // update_block_from_all_volume_groups
    method UpdateFromAllGroups(block: StorageBlock) returns (ghost order: seq<string>)
      requires GroupsReadable()
      modifies block
      ensures Enumerates(order, groups.Keys) && block.View() == RelinkFrom(old(block.View()), old(LiveViews()), order)
    {
      ghost var live, start := LiveViews(), block.View();
      order := [];
      var todo := groups.Keys;
      while todo != {}
        invariant GroupsReadable() && LiveViews() == live && todo <= groups.Keys
        invariant Walk(live, start, todo, order, block.View())
        decreases todo
      {
        var n :| n in todo;
        WalkOne(block, n, live, start, todo, order);
        order := order + [n];
        todo := todo - {n};
      }
      WalkEnd(live, start, order, block.View());
    }

    // An overlay that was in its place is dropped, and with that disposed.
    method PutBlock(overlay: StorageBlock)
      requires BlocksValid() && overlay !in blocks.Values
      modifies this`blocks, blocks.Values
      ensures BlocksValid() && blocks == old(blocks)[overlay.path := overlay]
      ensures BlockViews() == old(BlockViews())[overlay.path := overlay.View()]
      ensures overlay.path in old(blocks) ==> old(blocks[overlay.path]).pv.None? && old(blocks[overlay.path]).lv.None?
    {
      if overlay.path in blocks {
        blocks[overlay.path].Dispose();
      }
      blocks := blocks[overlay.path := overlay];
    }

    method InsertBlock(overlay: StorageBlock, ghost w: World)
      requires Valid() && Looks(w) && overlay !in blocks.Values
      modifies this`blocks, blocks.Values
      ensures Valid() && blocks == old(blocks)[overlay.path := overlay]
      ensures Looks(w.(blocks := w.blocks[overlay.path := overlay.View()]))
    {
      PutBlock(overlay);
      assert unchanged(family) && unchanged(members);
    }

    method LinkBlock(overlay: StorageBlock, ghost w: World) returns (ghost order: seq<string>)
      requires Valid() && Looks(w) && overlay.path in blocks && blocks[overlay.path] == overlay
      modifies overlay
      ensures Valid() && Enumerates(order, w.live.Keys)
      ensures Looks(w.(blocks := w.blocks[overlay.path := RelinkFrom(old(overlay.View()), w.live, order)]))
    {
      LooksMeans(w);
      order := UpdateFromAllGroups(overlay);
      assert unchanged(family) && unchanged(members) && FamilyValid();
      OneBlock(overlay.path, w.blocks);
    }

    lemma OneBlock(path: Path, before: map<Path, Block>)
      requires BlocksValid() && path in blocks && blocks.Keys == before.Keys
      requires forall p :: p in blocks && blocks[p] != blocks[path] ==> blocks[p].View() == before[p]
      ensures BlockViews() == before[path := blocks[path].View()]
    {
      assert forall p :: p in blocks && p != path ==> blocks[p] != blocks[path];
    }

    /** A real block appears; its overlay is new. */
    method OnInterfaceAdded(path: Path, device: string, symlinks: seq<string>, dm: Option<DmNames>)
      returns (ghost order: seq<string>)
      requires Valid()
      modifies this`blocks, blocks.Values
      ensures Valid()
      ensures Enabled(old(World()), BlockAdded(path, Block(device, symlinks, dm, None, None), order))
      ensures World() == Step(old(World()), BlockAdded(path, Block(device, symlinks, dm, None, None), order))
    {
      ghost var w, b := World(), Block(device, symlinks, dm, None, None);
      LooksMeans(w);
      var overlay := new StorageBlock(path, device, symlinks, dm);
      InsertBlock(overlay, w);
      order := LinkBlock(overlay, w.(blocks := w.blocks[path := b]));
      AddedStep(w, path, b, order);
      LooksMeans(Step(w, BlockAdded(path, b, order)));
    }

    method ForgetBlock(path: Path)
      requires BlocksValid() && path in blocks
      modifies this`blocks, blocks[path]
      ensures BlocksValid() && BlockViews() == old(BlockViews()) - {path}
      ensures old(blocks[path]).pv.None? && old(blocks[path]).lv.None?
    {
      blocks[path].Dispose();
      blocks := blocks - {path};
    }

    /** A real block goes; its overlay drops its interfaces. */
    method OnInterfaceRemoved(path: Path)
      requires Valid()
      modifies this`blocks, blocks.Values
      ensures Valid() && World() == Step(old(World()), BlockRemoved(path))
      ensures path in old(blocks) ==> old(blocks[path]).pv.None? && old(blocks[path]).lv.None?
    {
      ghost var w := World();
      assert w.blocks.Keys == blocks.Keys;
      if path in blocks {
        ForgetBlock(path);
      }
      assert unchanged(family) && unchanged(members) && FamilyValid();
      DroppedStep(w, World(), path);
    }
  }

  // All of `part` is in `table`, the same objects.
  ghost predicate Extends(table: map<string, StorageVolumeGroup>, part: map<string, StorageVolumeGroup>) {
    forall n :: n in part ==> n in table && table[n] == part[n]
  }

  lemma ExtendsTwice(a: map<string, StorageVolumeGroup>, b: map<string, StorageVolumeGroup>, c: map<string, StorageVolumeGroup>)
    requires Extends(a, b) && Extends(b, c)
    ensures Extends(a, c)
  {
  }

  // How far a walk over all groups has come: it still has to look at `todo`.
  ghost predicate Walk(live: map<string, Group>, start: Block, todo: set<string>, order: seq<string>, now: Block) {
    && NoRepeats(order)
    && (forall n :: n in order <==> n in live && n !in todo)
    && now == RelinkFrom(start, live, order)
  }

  lemma WalkNext(live: map<string, Group>, start: Block, todo: set<string>, order: seq<string>, now: Block, n: string)
    requires Walk(live, start, todo, order, now) && n in todo && n in live
    ensures Walk(live, start, todo - {n}, order + [n], Relink(now, live[n]))
  {
    var longer := order + [n];
    assert longer[..|order|] == order && n !in order;
    assert forall m :: m in longer <==> m in order || m == n;
  }

  lemma WalkEnd(live: map<string, Group>, start: Block, order: seq<string>, now: Block)
    requires Walk(live, start, {}, order, now)
    ensures Enumerates(order, live.Keys) && now == RelinkFrom(start, live, order)
  {
  }

  lemma AddedStep(w: World, p: Path, b: Block, order: seq<string>)
    requires b.pv.None? && b.lv.None? && Enumerates(order, w.live.Keys)
    ensures Enabled(w, BlockAdded(p, b, order))
    ensures var w1 := w.(blocks := w.blocks[p := b]);
            w1.(blocks := w1.blocks[p := RelinkFrom(b, w1.live, order)]) == Step(w, BlockAdded(p, b, order))
  {
  }

  lemma DroppedStep(w: World, w': World, p: Path)
    requires w'.live == w.live && w'.dead == w.dead
    requires w'.blocks == if p in w.blocks then w.blocks - {p} else w.blocks
    ensures w' == Step(w, BlockRemoved(p))
  {
    assert p !in w.blocks ==> w.blocks - {p} == w.blocks;
  }

  lemma FailedUpdate(g: Group)
    ensures Updated(g, Failure("")) == Published(g) && !IsChange(g, Failure(""))
  {
  }

  lemma ListingKnown(w: World, name: string)
    ensures name in w.live ==> w.(live := w.live[name := Listing(w.live, name, false)]) == w
  {
  }

  lemma ListedTwice(w: World, name: string)
    ensures var now := w.(live := w.live[name := Listing(w.live, name, false)]);
            now.(live := now.live[name := Published(now.live[name])]) == w.(live := w.live[name := Listing(w.live, name, true)])
  {
  }

  lemma ListedEnds(w: World, names: seq<string>, failed: set<nat>)
    ensures w.(live := AddGroups(w.live, names[..0], failed)) == w && names[..|names|] == names
  {
  }

  lemma ListedOneMore(w: World, names: seq<string>, failed: set<nat>, i: nat)
    requires i < |names|
    ensures var now := w.(live := AddGroups(w.live, names[..i], failed));
            now.(live := now.live[names[i] := Listing(now.live, names[i], i in failed)]) ==
              w.(live := AddGroups(w.live, names[..i + 1], failed))
  {
    assert names[..i + 1][..i] == names[..i];
  }

  lemma ListedStep(w: World, names: seq<string>, gone: seq<string>, failed: set<nat>)
    requires Enabled(w, List(names, gone, {}))
    ensures Enabled(w, List(names, gone, failed))
    ensures var w1 := RemoveAll(w, gone);
            Step(w, List(names, gone, failed)) == w1.(live := AddGroups(w1.live, names, failed))
    ensures forall n :: n in w.live && n in names ==> n in RemoveAll(w, gone).live
  {
  }

  // How far the first loop has come: it still has to look at `todo`.
  ghost predicate Sweep(w: World, names: seq<string>, todo: set<string>, gone: seq<string>, now: World) {
    && NoRepeats(gone)
    && (forall n :: n in gone <==> n in w.live && n !in todo && n !in names)
    && now == RemoveAll(w, gone)
  }

  lemma SweepStart(w: World, names: seq<string>)
    ensures Sweep(w, names, w.live.Keys, [], w)
  {
  }

  lemma SweepNext(w: World, names: seq<string>, todo: set<string>, gone: seq<string>, now: World, n: string)
    requires Sweep(w, names, todo, gone, now) && n in todo && n in now.live
    ensures n in names ==> Sweep(w, names, todo - {n}, gone, now)
    ensures n !in names ==> Sweep(w, names, todo - {n}, gone + [n], Remove(now, n))
  {
    if n !in names {
      var longer := gone + [n];
      assert longer[..|gone|] == gone && n !in gone;
      assert forall m :: m in longer <==> m in gone || m == n;
    }
  }

  lemma SweepEnd(w: World, names: seq<string>, gone: seq<string>, now: World)
    requires Sweep(w, names, {}, gone, now)
    ensures Enabled(w, List(names, gone, {})) && now == RemoveAll(w, gone)
  {
  }

  lemma RetiredStep(w: World, w1: World, n: string)
    requires n in w.live
    requires w1 == World(w.live[n := Disposed(w.live[n])], w.dead, RelinkAll(w.blocks, Cleared(w.live[n])))
    ensures World(w1.live - {n}, w1.dead + [w1.live[n]], w1.blocks) == Remove(w, n)
  {
    assert w1.live - {n} == w.live - {n};
  }

  lemma ShownStep(w: World, w': World, t: Target, reply: Reply)
    requires Known(w, t)
    requires var s := Store(w, t, Updated(Find(w, t), reply)); w'.live == s.live && w'.dead == s.dead
    requires w'.blocks == if IsChange(Find(w, t), reply) then RelinkAll(w.blocks, Updated(Find(w, t), reply)) else w.blocks
    ensures w' == Step(w, Show(t, reply))
  {
  }

  lemma FreedStep(w: World, w': World, i: nat)
    requires i < |w.dead| && w.dead[i].path.None?
    requires w'.live == w.live && w'.dead == w.dead[i := Disposed(w.dead[i]).(ended := true)]
    requires w'.blocks == RelinkAll(w.blocks, Cleared(w.dead[i]))
    ensures w' == Freed(w, i)
  {
    assert Cleared(w.dead[i]) == Disposed(w.dead[i]);
  }
}
