/** The state that the daemon mirrors, as values, and what each callback makes of it:
    volume groups and their volumes (src/volumegroup.c, src/logicalvolume.c), block
    overlays (src/block.c), and the manager's two tables (src/manager.c).

    The classes of module `Mirror` hold this state in fields; their methods are proved to
    change it as the functions here say. Module `MirrorRuns` proves what holds in every run.
    An object that is published where another one is takes its path; that is left to `Displacement`. */
module MirrorState {
  import opened Wrappers
  import opened LvmNames
  import ObjectPath

  type Path = string

  // --- What the helper prints ---------------------------------------------------------

  // Whatever else an entry says. Nothing looks into it, but replies are compared as a whole.
  type Rest = string

  datatype LvInfo = LvInfo(name: string, uuid: Option<string>, size: Option<nat>, attr: Option<string>,
                           movePv: Option<string>, copyPercent: Option<nat>, rest: Rest)

  datatype PvInfo = PvInfo(device: Option<string>, size: Option<nat>, freeSize: Option<nat>, rest: Rest)

  datatype VgInfo = VgInfo(uuid: Option<string>, size: Option<nat>, freeSize: Option<nat>,
                           extentSize: Option<nat>, lvs: seq<LvInfo>, pvs: seq<PvInfo>, rest: Rest)

  // A helper run ends with a reply or with an error message.
  type Reply = Result<VgInfo, string>

  // --- What the objects hold ----------------------------------------------------------

  datatype LvProps = LvProps(uuid: string, size: nat, kind: string, active: bool)

  datatype VgProps = VgProps(uuid: string, size: nat, freeSize: nat, extentSize: nat)

  // `path` is where the object is exported, if it is.
  datatype Volume = Volume(path: Option<Path>, needsPublish: bool, props: LvProps)

  // A volume that is ever made holds a reference to its group and is never freed itself, so from
  // then on the group is `anchored`. Without that its last reference goes, and it has `ended`.
  datatype Group = Group(name: string, path: Option<Path>, needPublish: bool, info: Option<VgInfo>,
                         volumes: map<string, Volume>, pvs: map<string, PvInfo>,
                         needsPolling: bool, props: VgProps, anchored: bool, ended: bool)

  // The PhysicalVolumeBlock interface of a block: the path of its group may be NULL.
  datatype PvLink = PvLink(group: Option<Path>, size: nat, freeSize: nat)

  // The udev properties DM_VG_NAME and DM_LV_NAME.
  datatype DmNames = DmNames(vg: string, lv: string)

  // `lv` is the LogicalVolumeBlock interface, if there is one; the path in it may be NULL.
  datatype Block = Block(device: string, symlinks: seq<string>, dm: Option<DmNames>,
                         pv: Option<PvLink>, lv: Option<Option<Path>>)

  function Or<T>(o: Option<T>, default: T): T {
    if o.Some? then o.value else default
  }

  const NO_PROPS := LvProps("", 0, "", false)
  const NEW_VOLUME := Volume(None, true, NO_PROPS)
  const LVM_BASE := "/org/freedesktop/UDisks2/lvm"

  function NewGroup(name: string): Group {
    Group(name, None, true, None, map[], map[], false, VgProps("", 0, 0, 0), false, false)
  }

  // The path below an exported object; building on NULL or on a trailing separator gives NULL.
  function Child(base: Option<Path>, name: string): Option<Path> {
    if base.None? || (|base.value| > 0 && base.value[|base.value| - 1] == '/') then None
    else Some(ObjectPath.Build(base.value, [name]))
  }

  function GroupPath(name: string): Path {
    ObjectPath.Build(LVM_BASE, [name])
  }

  // --- storage_logical_volume_update ----------------------------------------------------

  predicate HasAttr(e: LvInfo) {
    e.attr.Some? && |e.attr.value| > 6
  }

  predicate IsThinTarget(e: LvInfo) {
    HasAttr(e) && e.attr.value[6] == 't'
  }

  function UpdateProps(p: LvProps, e: LvInfo): LvProps {
    LvProps(Or(e.uuid, p.uuid), Or(e.size, p.size),
            if IsThinTarget(e) && e.attr.value[0] == 't' then "pool" else "block",
            HasAttr(e) && e.attr.value[4] == 'a')
  }

  function UpdateVolume(v: Volume, groupPath: Option<Path>, e: LvInfo): Volume {
    var p := Child(groupPath, e.name);
    Volume(if v.needsPublish && p.Some? then p else v.path, false, UpdateProps(v.props, e))
  }

  // --- update_with_variant --------------------------------------------------------------

  // The loop over the reply's volumes: later entries win, hidden ones are skipped.
  function AddEntries(volumes: map<string, Volume>, groupPath: Option<Path>, entries: seq<LvInfo>): map<string, Volume> {
    if entries == [] then volumes
    else
      var before := AddEntries(volumes, groupPath, entries[..|entries| - 1]);
      var e := entries[|entries| - 1];
      if !IsVisible(e.name) then before
      else before[e.name := UpdateVolume(if e.name in before then before[e.name] else NEW_VOLUME, groupPath, e)]
  }

  function VisibleNames(entries: seq<LvInfo>): set<string> {
    set i | 0 <= i < |entries| && IsVisible(entries[i].name) :: entries[i].name
  }

  function VolumesAfter(volumes: map<string, Volume>, groupPath: Option<Path>, entries: seq<LvInfo>): map<string, Volume> {
    var all := AddEntries(volumes, groupPath, entries);
    map n | n in all && n in VisibleNames(entries) :: all[n]
  }

  // Device to description; a device listed twice keeps the last one.
  function PvTable(pvs: seq<PvInfo>): map<string, PvInfo> {
    if pvs == [] then map[]
    else
      var before := PvTable(pvs[..|pvs| - 1]);
      var pv := pvs[|pvs| - 1];
      if pv.device.Some? then before[pv.device.value := pv] else before
  }

  predicate Polls(e: LvInfo) {
    IsPvmove(e.name) || (IsVisible(e.name) && IsThinTarget(e))
  }

  predicate NeedsPolling(entries: seq<LvInfo>) {
    exists i :: 0 <= i < |entries| && Polls(entries[i])
  }

  function UpdateVgProps(p: VgProps, r: VgInfo): VgProps {
    VgProps(Or(r.uuid, p.uuid), Or(r.size, p.size), Or(r.freeSize, p.freeSize), Or(r.extentSize, p.extentSize))
  }

  function Published(g: Group): Group {
    if g.needPublish then g.(needPublish := false, path := Some(GroupPath(g.name))) else g
  }

  /** What the reply does to the group when it is not taken for a repetition. */
  function FullPass(g: Group, r: VgInfo): Group {
    g.(info := Some(r),
       volumes := VolumesAfter(g.volumes, g.path, r.lvs),
       pvs := PvTable(r.pvs),
       needsPolling := NeedsPolling(r.lvs),
       anchored := g.anchored || VisibleNames(r.lvs) != {})
  }

  // The group when the reply's own properties are in and it is published.
  function Received(g: Group, r: VgInfo): Group {
    Published(g.(props := UpdateVgProps(g.props, r)))
  }

  predicate IsChange(g: Group, reply: Reply) {
    reply.Success? && g.info != Some(reply.value)
  }

  function Updated(g: Group, reply: Reply): Group {
    match reply
    case Failure(_) => Published(g)
    case Success(r) => if g.info == Some(r) then Received(g, r) else FullPass(Received(g, r), r)
  }

  // --- poll_with_variant ----------------------------------------------------------------

  function PollEntries(volumes: map<string, Volume>, groupPath: Option<Path>, entries: seq<LvInfo>): map<string, Volume> {
    if entries == [] then volumes
    else
      var before := PollEntries(volumes, groupPath, entries[..|entries| - 1]);
      var e := entries[|entries| - 1];
      if e.name in before then before[e.name := UpdateVolume(before[e.name], groupPath, e)] else before
  }

  function Polled(g: Group, r: VgInfo): Group {
    g.(props := UpdateVgProps(g.props, r), volumes := PollEntries(g.volumes, g.path, r.lvs))
  }

  // --- storage_volume_group_dispose -----------------------------------------------------

  function Cleared(g: Group): Group {
    g.(needPublish := false, info := None, volumes := map[], pvs := map[])
  }

  function Disposed(g: Group): Group {
    Cleared(g).(path := None)
  }

  // --- storage_volume_group_update_block ------------------------------------------------

  // The description of the first of these names that the group holds.
  function FirstMatch(pvs: map<string, PvInfo>, names: seq<string>): Option<PvInfo> {
    if names == [] then None
    else if names[0] in pvs then Some(pvs[names[0]])
    else FirstMatch(pvs, names[1..])
  }

  function Match(pvs: map<string, PvInfo>, b: Block): Option<PvInfo> {
    FirstMatch(pvs, [b.device] + b.symlinks)
  }

  // A property that the description lacks keeps its value.
  function Describe(prev: Option<PvLink>, group: Option<Path>, i: PvInfo): PvLink {
    PvLink(group,
           Or(i.size, if prev.Some? then prev.value.size else 0),
           Or(i.freeSize, if prev.Some? then prev.value.freeSize else 0))
  }

  function LvLink(b: Block, g: Group): Option<Option<Path>> {
    if b.dm.Some? && b.dm.value.vg == g.name then
      if b.dm.value.lv in g.volumes then Some(g.volumes[b.dm.value.lv].path) else None
    else b.lv
  }

  function PvLinkTo(b: Block, g: Group): Option<PvLink> {
    match Match(g.pvs, b)
    case Some(i) => Some(Describe(b.pv, g.path, i))
    case None => if b.pv.Some? && b.pv.value.group == g.path then None else b.pv
  }

  function Relink(b: Block, g: Group): Block {
    b.(lv := LvLink(b, g), pv := PvLinkTo(b, g))
  }

  function RelinkAll(blocks: map<Path, Block>, g: Group): map<Path, Block> {
    map p | p in blocks :: Relink(blocks[p], g)
  }

  // update_block_from_all_volume_groups, for one order of the hash table
  function RelinkFrom(b: Block, groups: map<string, Group>, order: seq<string>): Block
    requires forall n :: n in order ==> n in groups
  {
    if order == [] then b
    else
      var last := |order| - 1;
      assert order[last] in order && forall n :: n in order[..last] ==> n in order;
      Relink(RelinkFrom(b, groups, order[..last]), groups[order[last]])
  }

  // --- The whole mirror -----------------------------------------------------------------

  /** `live` is the manager's table of groups and `blocks` its table of overlays. `dead` holds
      the groups that were disposed, since a reply for one of them may still be on its way. */
  datatype World = World(live: map<string, Group>, dead: seq<Group>, blocks: map<Path, Block>)

  datatype Target = Live(name: string) | Dead(index: nat)

  datatype Event =
    | Show(target: Target, reply: Reply)                      // a full update comes back
    | Poll(target: Target, info: VgInfo)                      // the result of a poll is accepted
    | List(names: seq<string>, gone: seq<string>, failed: set<nat>)
    | BlockAdded(path: Path, block: Block, order: seq<string>)
    | BlockRemoved(path: Path)
    | LastUnref(index: nat)                                   // the last callback of a disposed group ends

  predicate Known(w: World, t: Target) {
    match t
    case Live(n) => n in w.live
    case Dead(i) => i < |w.dead| && !w.dead[i].ended
  }

  function Find(w: World, t: Target): Group
    requires Known(w, t)
  {
    match t
    case Live(n) => w.live[n]
    case Dead(i) => w.dead[i]
  }

  function Store(w: World, t: Target, g: Group): World
    requires Known(w, t)
  {
    match t
    case Live(n) => w.(live := w.live[n := g])
    case Dead(i) => w.(dead := w.dead[i := g])
  }

  predicate NoRepeats(s: seq<string>) {
    forall i, j :: 0 <= i < j < |s| ==> s[i] != s[j]
  }

  // `s` enumerates `names`, in some order.
  predicate Enumerates(s: seq<string>, names: set<string>) {
    NoRepeats(s) && (forall n :: n in s ==> n in names) && (forall n :: n in names ==> n in s)
  }

  /** The object system disposes a group once more before it is freed: by then it has nothing
      listed and no path, and with that it updates all blocks. */
  function Freed(w: World, i: nat): World
    requires i < |w.dead|
  {
    var g := Disposed(w.dead[i]);
    w.(dead := w.dead[i := g.(ended := true)], blocks := RelinkAll(w.blocks, g))
  }

  /** `gone` is the order in which the table's iterator meets the groups that are not listed,
      `order` the one in which it meets all groups; both are the hash table's business. */
  predicate Enabled(w: World, e: Event) {
    match e
    case Show(t, _) => Known(w, t)
    case Poll(t, _) => Known(w, t)
    case List(names, gone, _) => Enumerates(gone, set n | n in w.live && n !in names)
    case BlockAdded(_, b, order) => b.pv.None? && b.lv.None? && Enumerates(order, w.live.Keys)
    case BlockRemoved(_) => true
    case LastUnref(i) => Known(w, Dead(i)) && !w.dead[i].anchored
  }

  function Remove(w: World, name: string): World
    requires name in w.live
  {
    var g := w.live[name];
    World(w.live - {name}, w.dead + [Disposed(g)], RelinkAll(w.blocks, Cleared(g)))
  }

  function RemoveAll(w: World, gone: seq<string>): (w': World)
    requires NoRepeats(gone) && forall n :: n in gone ==> n in w.live
    ensures w'.live == w.live - (set n | n in gone)
  {
    if gone == [] then
      assert w.live == w.live - (set n | n in gone);
      w
    else
      var last := |gone| - 1;
      assert gone[last] in gone && forall n :: n in gone[..last] ==> n in gone;
      var before := RemoveAll(w, gone[..last]);
      assert gone[last] !in gone[..last];
      assert (set n | n in gone) == (set n | n in gone[..last]) + {gone[last]} by {
        assert gone == gone[..last] + [gone[last]];
      }
      Remove(before, gone[last])
  }

  // The second loop of the list reply. Where the helper cannot be started, the error comes
  // back at once.
  function AddGroups(live: map<string, Group>, names: seq<string>, failed: set<nat>): map<string, Group> {
    if names == [] then live
    else
      var last := |names| - 1;
      var before := AddGroups(live, names[..last], failed);
      var g := if names[last] in before then before[names[last]] else NewGroup(names[last]);
      before[names[last] := if last in failed then Updated(g, Failure("")) else g]
  }

  function Shown(w: World, t: Target, reply: Reply): World
    requires Known(w, t)
  {
    var g := Find(w, t);
    var w1 := Store(w, t, Updated(g, reply));
    if IsChange(g, reply) then w1.(blocks := RelinkAll(w.blocks, Updated(g, reply))) else w1
  }

  function Listed(w: World, names: seq<string>, gone: seq<string>, failed: set<nat>): World
    requires Enabled(w, List(names, gone, failed))
  {
    var w1 := RemoveAll(w, gone);
    w1.(live := AddGroups(w1.live, names, failed))
  }

  function Step(w: World, e: Event): World
    requires Enabled(w, e)
  {
    match e
    case Show(t, reply) => Shown(w, t, reply)
    case Poll(t, r) => Store(w, t, Polled(Find(w, t), r))
    case List(names, gone, failed) => Listed(w, names, gone, failed)
    case BlockAdded(p, b, order) => w.(blocks := w.blocks[p := RelinkFrom(b, w.live, order)])
    case BlockRemoved(p) => w.(blocks := w.blocks - {p})
    case LastUnref(i) => Freed(w, i)
  }

  const EMPTY := World(map[], [], map[])
}
