/** Runs of the daemon with two groups whose names decode to the same, such as "a-" and
    "a_2d" (see `ObjectPath.CollidingNames`). */
module DisplacementWitness {
  import opened Wrappers
  import opened LvmNames
  import opened MirrorState
  import opened Displacement
  import MirrorLinks
  import MirrorWitness
  import Collisions
  import DisplacedLinks
  import ObjectPath

  lemma Extend(states: seq<World>, events: seq<Event>, e: Event)
    requires Displacement.IsRun(states, events) && Enabled(states[|events|], e)
    ensures Displacement.IsRun(states + [Displacement.Step(states[|events|], e)], events + [e])
  {
  }

  /** Two legal names of groups whose objects have one path. */
  lemma CollidingGroups()
    ensures GroupPath("a-") == GroupPath("a_2d")
  {
    ObjectPath.CollidingNames();
    OneElement("a-");
    OneElement("a_2d");
  }

  lemma OneElement(n: string)
    ensures GroupPath(n) == LVM_BASE + "/" + ObjectPath.Encode(n)
  {
    ObjectPath.ElementsOneMore(LVM_BASE, [n], 0);
    assert [n][0..] == [n] && [n][1..] == [];
    assert ObjectPath.Elements([]) == "";
  }

  const NOTHING := VgInfo(None, None, None, None, [], [], "")

  lemma TwoGroups(m: string, n: string, blocks: map<Path, Block>)
    requires m != n
    ensures var w := World(map[], [], blocks);
            Enabled(w, List([m, n], [], {})) &&
            Displacement.Step(w, List([m, n], [], {})) == World(map[m := NewGroup(m), n := NewGroup(n)], [], blocks)
  {
    var w := World(map[], [], blocks);
    assert RemoveAll(w, []) == w;
    assert [m, n][..1] == [m] && [m][..0] == [];
    assert EnsureAll(map[], [], {}) == map[];
    assert EnsureAll(map[], [m], {}) == map[m := NewGroup(m)];
  }

  // The first group gets its volume.
  lemma FirstVolume(live: map<string, Group>, m: string, x: string, blocks: map<Path, Block>)
    requires m in live && live[m] == NewGroup(m) && m != "" && IsVisible(x)
    ensures var w' := Displacement.Step(World(live, [], blocks), Show(Live(m), Success(MirrorWitness.OneLv(x))));
            && Place(m, x).Some? && VolumeAt(w'.live, Place(m, x).value, m, x)
            && w'.dead == [] && w'.live.Keys == live.Keys && w'.live[m].name == m
  {
    var e := MirrorWitness.OneLv(x).lvs[0];
    var live0 := SetProps(live, m, Success(MirrorWitness.OneLv(x)));
    PublishAt(live0, m);
    var live1 := PublishGroup(live0, m);
    Collisions.PlaceMeans(m, x);
    var p := Place(m, x).value;
    assert MirrorWitness.OneLv(x).lvs[..0] == [];
    assert TakeEntries(live1, m, MirrorWitness.OneLv(x).lvs) == TakeEntry(live1, m, e);
    var vol := UpdateVolume(NEW_VOLUME, live1[m].path, e);
    WithVolumeAt(VacateVolumes(live1, p), m, x, vol);
    DropAt(TakeEntry(live1, m, e), m, MirrorWitness.OneLv(x));
    assert x in VisibleNames(MirrorWitness.OneLv(x).lvs) by { assert MirrorWitness.OneLv(x).lvs[0].name == x; }
  }

  // The second one comes, with an empty description, and takes the path.
  lemma SecondGroup(w: World, m: string, n: string, p: Path, x: string)
    requires Displacement.Inv(w) && n in w.live && w.live[n].needPublish && m != n && VolumeAt(w.live, p, m, x)
    ensures var w' := Displacement.Step(w, Show(Live(n), Success(NOTHING)));
            && VolumeAt(w'.live, p, m, x) && w'.live.Keys == w.live.Keys
            && (forall h :: GroupAt(w'.live, GroupPath(n), h) <==> h == n)
  {
    assert GroupInv(n, w.live[n]);
    var live0 := SetProps(w.live, n, Success(NOTHING));
    assert VolumeAt(live0, p, m, x);
    PublishAt(live0, n);
    var live1 := PublishGroup(live0, n);
    assert TakeEntries(live1, n, NOTHING.lvs) == live1;
    DropAt(live1, n, NOTHING);
  }

  lemma LastList(w: World, m: string, n: string, p: Path, x: string)
    requires Displacement.Inv(w) && w.live.Keys == {m, n} && m != n && VolumeAt(w.live, p, m, x)
    requires forall h :: GroupAt(w.live, GroupPath(n), h) <==> h == n
    ensures Enabled(w, List([m], [n], {}))
    ensures var w' := Displacement.Step(w, List([m], [n], {}));
            w'.live.Keys == {m} && VolumeAt(w'.live, p, m, x) && !Collisions.HasGroup(w'.live, GroupPath(n))
  {
    var e := List([m], [n], {});
    assert [m][..0] == [] && [n][..0] == [];
    assert RemoveAll(w, []) == w;
    assert RemoveAll(w, [n]) == Remove(w, n);
    var live := w.live - {n};
    assert EnsureAll(live, [], {}) == live && EnsureAll(live, [m], {}) == EnsureOne(live, m, false);
    assert EnsureOne(live, m, false) == live;
    assert Displacement.Step(w, e).live == live;
    assert forall h :: GroupAt(live, GroupPath(n), h) ==> GroupAt(w.live, GroupPath(n), h) && h != n;
  }

  lemma VolumeThenDisplaced(m: string, n: string, x: string) returns (states: seq<World>, events: seq<Event>)
    requires m != n && m != "" && IsVisible(x)
    ensures Displacement.IsRun(states, events)
    ensures var w := states[|events|];
            && w.live.Keys == {m, n} && Place(m, x).Some? && VolumeAt(w.live, Place(m, x).value, m, x)
            && forall h :: GroupAt(w.live, GroupPath(n), h) <==> h == n
  {
    states, events := VolumeFirst(m, n, x);
    var w, e := states[|events|], Show(Live(n), Success(NOTHING));
    Displacement.InvAlways(states, events, |events|);
    SecondGroup(w, m, n, Place(m, x).value, x);
    Extend(states, events, e);
    states, events := states + [Displacement.Step(w, e)], events + [e];
  }

  lemma VolumeFirst(m: string, n: string, x: string) returns (states: seq<World>, events: seq<Event>)
    requires m != n && m != "" && IsVisible(x)
    ensures Displacement.IsRun(states, events)
    ensures var w := states[|events|];
            w.live.Keys == {m, n} && Place(m, x).Some? && VolumeAt(w.live, Place(m, x).value, m, x) && w.live[n].needPublish
  {
    var e, f := List([m, n], [], {}), Show(Live(m), Success(MirrorWitness.OneLv(x)));
    TwoGroups(m, n, map[]);
    Extend([EMPTY], [], e);
    var w := Displacement.Step(EMPTY, e);
    FirstVolume(w.live, m, x, map[]);
    StillNew(w, m, n, x);
    Extend([EMPTY] + [w], [] + [e], f);
    states, events := [EMPTY] + [w] + [Displacement.Step(w, f)], [] + [e] + [f];
  }

  /** The volume of the displaced group stays on the bus after the path above it has gone. */
  lemma VolumeIsOrphaned(m: string, n: string, x: string) returns (states: seq<World>, events: seq<Event>)
    requires m != n && m != "" && GroupPath(m) == GroupPath(n) && IsVisible(x)
    ensures Displacement.IsRun(states, events)
    ensures !Collisions.Orphanless(states[|events|].live)
  {
    states, events := VolumeThenDisplaced(m, n, x);
    var w, e := states[|events|], List([m], [n], {});
    Displacement.InvAlways(states, events, |events|);
    LastList(w, m, n, Place(m, x).value, x);
    Extend(states, events, e);
    states, events := states + [Displacement.Step(w, e)], events + [e];
  }

  lemma StillNew(w: World, m: string, n: string, x: string)
    requires w.live.Keys == {m, n} && m != n && w.live[m] == NewGroup(m) && w.live[n] == NewGroup(n)
    ensures var w' := Displacement.Step(w, Show(Live(m), Success(MirrorWitness.OneLv(x)))); n in w'.live && w'.live[n].needPublish
  {
    FlagStays(PublishGroup(SetProps(w.live, m, Success(MirrorWitness.OneLv(x))), m), m, MirrorWitness.OneLv(x).lvs, n);
  }

  lemma {:induction false} FlagStays(live: map<string, Group>, m: string, entries: seq<LvInfo>, n: string)
    requires m in live && n in live
    ensures var r := TakeEntries(live, m, entries); n in r && r[n].needPublish == live[n].needPublish
  {
    if entries != [] {
      FlagStays(live, m, entries[..|entries| - 1], n);
    }
  }

  // The first group lists a device; the second has not been described.
  lemma DeviceFirst(p: Path, device: string, m: string, n: string) returns (states: seq<World>, events: seq<Event>)
    requires m != n
    ensures Displacement.IsRun(states, events)
    ensures var w := states[|events|];
            && w.live.Keys == {m, n} && w.live[n] == NewGroup(n) && GroupAt(w.live, GroupPath(m), m)
            && w.blocks.Keys == {p} && w.blocks[p].pv.Some? && w.blocks[p].pv.value.group == Some(GroupPath(m))
  {
    var r, b := MirrorWitness.OnePv(device), MirrorWitness.Bare(device);
    var e, f, g := BlockAdded(p, b, []), List([m, n], [], {}), Show(Live(m), Success(r));
    Extend([EMPTY], [], e);
    var w1 := Displacement.Step(EMPTY, e);
    assert w1.blocks == map[p := b];
    TwoGroups(m, n, w1.blocks);
    Extend([EMPTY] + [w1], [] + [e], f);
    var w2 := Displacement.Step(w1, f);
    DeviceLinked(w2, p, device, m, n);
    Extend([EMPTY] + [w1] + [w2], [] + [e] + [f], g);
    states, events := [EMPTY] + [w1] + [w2] + [Displacement.Step(w2, g)], [] + [e] + [f] + [g];
  }

  lemma DeviceLinked(w: World, p: Path, device: string, m: string, n: string)
    requires m != n && w == World(map[m := NewGroup(m), n := NewGroup(n)], [], map[p := MirrorWitness.Bare(device)])
    ensures var w' := Displacement.Step(w, Show(Live(m), Success(MirrorWitness.OnePv(device))));
            && w'.live.Keys == {m, n} && w'.live[n] == NewGroup(n) && GroupAt(w'.live, GroupPath(m), m)
            && w'.blocks.Keys == {p} && w'.blocks[p].pv.Some? && w'.blocks[p].pv.value.group == Some(GroupPath(m))
  {
    var r := MirrorWitness.OnePv(device);
    MirrorWitness.OnePvTable(device);
    var live1 := PublishGroup(SetProps(w.live, m, Success(r)), m);
    assert TakeEntries(live1, m, r.lvs) == live1;
    MirrorWitness.BareMatch(Reconcile(live1, m, r)[m], w.blocks[p], device);
  }

  /** An error in the place of the second description is enough: it publishes that group over
      the first and relinks nothing, so the block's link is to a path whose group does not list it. */
  lemma LinkNamesAnother(p: Path, device: string, m: string, n: string) returns (states: seq<World>, events: seq<Event>)
    requires m != n && GroupPath(m) == GroupPath(n)
    ensures Displacement.IsRun(states, events)
    ensures var w := states[|events|];
            && p in w.blocks && w.blocks[p].pv.Some? && w.blocks[p].pv.value.group == Some(GroupPath(n))
            && GroupAt(w.live, GroupPath(n), n) && !MirrorLinks.Claims(w.live[n], w.blocks[p])
            && !MirrorLinks.Sound(w)
  {
    states, events := DeviceFirst(p, device, m, n);
    var w, e := states[|events|], Show(Live(n), Failure(""));
    PublishAt(w.live, n);
    Extend(states, events, e);
    var w' := Displacement.Step(w, e);
    states, events := states + [w'], events + [e];
    assert GroupAt(w'.live, GroupPath(n), n) && !GroupAt(w'.live, GroupPath(n), m);
    assert w'.blocks == w.blocks && w'.live[n].pvs == map[];
    assert !MirrorLinks.Reasoned(w'.live, w'.blocks[p]);
  }

  // The first group's volume is linked to the block that names it.
  lemma VolumeLinked(p: Path, b: Block, m: string, n: string, x: string) returns (states: seq<World>, events: seq<Event>)
    requires m != n && m != "" && IsVisible(x) && b.pv.None? && b.lv.None? && b.dm == Some(DmNames(m, x))
    ensures Displacement.IsRun(states, events)
    ensures var w := states[|events|];
            && w.live.Keys == {m, n} && w.live[n].needPublish
            && Place(m, x).Some? && VolumeAt(w.live, Place(m, x).value, m, x)
            && p in w.blocks && w.blocks[p].dm == b.dm && w.blocks[p].lv == Some(Place(m, x))
  {
    var e, f, g := BlockAdded(p, b, []), List([m, n], [], {}), Show(Live(m), Success(MirrorWitness.OneLv(x)));
    Extend([EMPTY], [], e);
    var w1 := Displacement.Step(EMPTY, e);
    assert w1.blocks == map[p := b];
    TwoGroups(m, n, w1.blocks);
    Extend([EMPTY] + [w1], [] + [e], f);
    var w2 := Displacement.Step(w1, f);
    FirstVolume(w2.live, m, x, w2.blocks);
    StillNew(w2, m, n, x);
    Extend([EMPTY] + [w1] + [w2], [] + [e] + [f], g);
    BlockFollows(w2, p, m, x);
    states, events := [EMPTY] + [w1] + [w2] + [Displacement.Step(w2, g)], [] + [e] + [f] + [g];
  }

  lemma BlockFollows(w: World, p: Path, m: string, x: string)
    requires m in w.live && w.live[m] == NewGroup(m) && p in w.blocks && w.blocks[p].dm == Some(DmNames(m, x))
    requires Place(m, x).Some?
    requires var w' := Displacement.Step(w, Show(Live(m), Success(MirrorWitness.OneLv(x))));
             VolumeAt(w'.live, Place(m, x).value, m, x) && w'.live[m].name == m
    ensures var w' := Displacement.Step(w, Show(Live(m), Success(MirrorWitness.OneLv(x))));
            p in w'.blocks && w'.blocks[p].dm == w.blocks[p].dm && w'.blocks[p].lv == Some(Place(m, x))
  {
  }

  lemma VolumeTaken(w: World, p: Path, m: string, n: string, x: string)
    requires Displacement.Inv(w) && m != n && n in w.live && w.live[n].needPublish && IsVisible(x)
    requires GroupPath(m) == GroupPath(n) && Place(m, x).Some?
    requires p in w.blocks && w.blocks[p].dm == Some(DmNames(m, x)) && w.blocks[p].lv == Some(Place(m, x))
    ensures var w' := Displacement.Step(w, Show(Live(n), Success(MirrorWitness.OneLv(x))));
            p in w'.blocks && w'.blocks[p].lv == Some(Place(m, x)) && !MirrorLinks.LvExact(w')
  {
    var r, q := MirrorWitness.OneLv(x), Place(m, x).value;
    assert GroupInv(n, w.live[n]);
    DisplacedLinks.ChangedVolumes(w.live, n, Success(r));
    OneIsVisible(x);
    assert Child(Published(w.live[n]).path, x) == Some(q);
    assert DisplacedLinks.Takes(w.live[n].volumes, Published(w.live[n]).path, VisibleNames(r.lvs), q);
    var w' := Displacement.Step(w, Show(Live(n), Success(r)));
    assert !VolumeAt(w'.live, q, m, x);
    assert w'.blocks[p] == Relink(w.blocks[p], w'.live[n]);
    Displacement.InvStep(w, Show(Live(n), Success(r)));
    assert GroupInv(n, w'.live[n]);
  }

  lemma OneIsVisible(x: string)
    requires IsVisible(x)
    ensures x in VisibleNames(MirrorWitness.OneLv(x).lvs)
  {
    assert MirrorWitness.OneLv(x).lvs[0].name == x;
  }

  /** The second group has a volume of the same name. It takes the path of the first one's, and
      the block's link still names that path. */
  lemma LinkNamesOtherVolume(p: Path, b: Block, m: string, n: string, x: string)
    returns (states: seq<World>, events: seq<Event>)
    requires m != n && m != "" && GroupPath(m) == GroupPath(n) && IsVisible(x)
    requires b.pv.None? && b.lv.None? && b.dm == Some(DmNames(m, x))
    ensures Displacement.IsRun(states, events)
    ensures var w := states[|events|];
            p in w.blocks && w.blocks[p].lv == Some(Place(m, x)) && Place(m, x).Some? && !MirrorLinks.LvExact(w)
  {
    states, events := VolumeLinked(p, b, m, n, x);
    var w, e := states[|events|], Show(Live(n), Success(MirrorWitness.OneLv(x)));
    Displacement.InvAlways(states, events, |events|);
    VolumeTaken(w, p, m, n, x);
    Extend(states, events, e);
    states, events := states + [Displacement.Step(w, e)], events + [e];
  }
}
