/** What the functions of `MirrorState` leave out: an object that is published at a path where
    another object of its kind is exported takes that path away from it (src/daemon.c:846-877,
    see `Registry.ObjectSkeleton.AddInterface`). Here is the step with that in it, what it keeps,
    and when it is another step at all. Module `Collisions` says so in terms of names. */
module Displacement {
  import opened Wrappers
  import opened LvmNames
  import opened MirrorState
  import MirrorRuns
  import MirrorTheorems

  // --- The step ------------------------------------------------------------------------------

  function Lose(v: Volume, p: Path): Volume {
    if v.path == Some(p) then v.(path := None) else v
  }

  // A volume is published at p: whichever volume is there loses its path.
  function VacateVolumes(live: map<string, Group>, p: Path): map<string, Group> {
    map n | n in live :: live[n].(volumes := map v | v in live[n].volumes :: Lose(live[n].volumes[v], p))
  }

  function VacateGroups(live: map<string, Group>, p: Path): map<string, Group> {
    map n | n in live :: if live[n].path == Some(p) then live[n].(path := None) else live[n]
  }

  // One volume of a reply for group n.
  function TakeEntry(live: map<string, Group>, n: string, e: LvInfo): map<string, Group>
    requires n in live
  {
    if !IsVisible(e.name) then live
    else
      var g := live[n];
      var before := if e.name in g.volumes then g.volumes[e.name] else NEW_VOLUME;
      var after := UpdateVolume(before, g.path, e);
      var others := if before.needsPublish && after.path.Some? then VacateVolumes(live, after.path.value) else live;
      WithVolume(others, n, e.name, after)
  }

  function TakeEntries(live: map<string, Group>, n: string, entries: seq<LvInfo>): (r: map<string, Group>)
    requires n in live
    ensures n in r
  {
    if entries == [] then live else TakeEntry(TakeEntries(live, n, entries[..|entries| - 1]), n, entries[|entries| - 1])
  }

  function PublishGroup(live: map<string, Group>, n: string): (r: map<string, Group>)
    requires n in live
    ensures r.Keys == live.Keys
  {
    if live[n].needPublish then VacateGroups(live, GroupPath(live[n].name))[n := Published(live[n])] else live
  }

  function DropVanished(g: Group, r: VgInfo): Group {
    g.(info := Some(r),
       volumes := map n | n in g.volumes && n in VisibleNames(r.lvs) :: g.volumes[n],
       pvs := PvTable(r.pvs),
       needsPolling := NeedsPolling(r.lvs),
       anchored := g.anchored || VisibleNames(r.lvs) != {})
  }

  function Reconcile(live: map<string, Group>, n: string, r: VgInfo): (d: map<string, Group>)
    requires n in live
    ensures n in d
  {
    var all := TakeEntries(live, n, r.lvs);
    all[n := DropVanished(all[n], r)]
  }

  function SetProps(live: map<string, Group>, n: string, reply: Reply): (r: map<string, Group>)
    requires n in live
    ensures n in r
  {
    if reply.Success? then live[n := live[n].(props := UpdateVgProps(live[n].props, reply.value))] else live
  }

  function ShowLive(w: World, n: string, reply: Reply): World
    requires n in w.live
  {
    var received := PublishGroup(SetProps(w.live, n, reply), n);
    if !IsChange(w.live[n], reply) then w.(live := received)
    else
      var live := Reconcile(received, n, reply.value);
      w.(live := live, blocks := RelinkAll(w.blocks, live[n]))
  }

  function EnsureOne(live: map<string, Group>, n: string, fails: bool): map<string, Group> {
    var known := if n in live then live else live[n := NewGroup(n)];
    if fails then PublishGroup(known, n) else known
  }

  function EnsureAll(live: map<string, Group>, names: seq<string>, failed: set<nat>): map<string, Group> {
    if names == [] then live
    else
      var last := |names| - 1;
      EnsureOne(EnsureAll(live, names[..last], failed), names[last], last in failed)
  }

  /** The step of the daemon. It is that of `MirrorState` but for objects that lose their path. */
  function Step(w: World, e: Event): World
    requires Enabled(w, e)
  {
    match e
    case Show(Live(n), reply) => ShowLive(w, n, reply)
    case List(names, gone, failed) =>
      var w1 := RemoveAll(w, gone);
      w1.(live := EnsureAll(w1.live, names, failed))
    case _ => MirrorState.Step(w, e)
  }

  ghost predicate IsRun(states: seq<World>, events: seq<Event>) {
    && |states| == |events| + 1
    && states[0] == EMPTY
    && forall i :: 0 <= i < |events| ==>
         Enabled(states[i], events[i]) && states[i + 1] == Step(states[i], events[i])
  }

  // --- Where objects are -----------------------------------------------------------------------

  /** The place of a volume, if its group's path can have anything below it. */
  function Place(n: string, v: string): Option<Path> {
    Child(Some(GroupPath(n)), v)
  }

  predicate VolumeInv(n: string, v: string, vol: Volume) {
    !vol.needsPublish && (vol.path.Some? ==> vol.path == Place(n, v))
  }

  ghost predicate GroupInv(n: string, g: Group) {
    && g.name == n && !g.ended
    && (g.path.Some? ==> g.path == Some(GroupPath(n)))
    && (g.needPublish ==> g.path.None? && g.info.None?)
    && (forall v :: v in g.volumes ==> VolumeInv(n, v, g.volumes[v]))
    && (g.info.None? ==> g.volumes == map[] && g.pvs == map[])
    && (g.info.Some? ==>
          g.volumes.Keys == VisibleNames(g.info.value.lvs) && g.pvs == PvTable(g.info.value.pvs) &&
          g.needsPolling == NeedsPolling(g.info.value.lvs))
  }

  predicate GroupAt(live: map<string, Group>, p: Path, n: string) {
    n in live && live[n].path == Some(p)
  }

  predicate VolumeAt(live: map<string, Group>, p: Path, n: string, v: string) {
    n in live && v in live[n].volumes && live[n].volumes[v].path == Some(p)
  }

  ghost predicate GroupsApart(live: map<string, Group>) {
    forall p, m, n :: GroupAt(live, p, m) && GroupAt(live, p, n) ==> m == n
  }

  ghost predicate VolumesApart(live: map<string, Group>) {
    forall p, m, v, n, u :: VolumeAt(live, p, m, v) && VolumeAt(live, p, n, u) ==> m == n && v == u
  }

  /** Nothing shares a path. */
  ghost predicate Unique(live: map<string, Group>) {
    GroupsApart(live) && VolumesApart(live)
  }

  ghost predicate Shapes(live: map<string, Group>) {
    forall n :: n in live ==> GroupInv(n, live[n])
  }

  ghost predicate Inv(w: World) {
    && Shapes(w.live) && Unique(w.live)
    && forall i :: 0 <= i < |w.dead| ==> MirrorRuns.DeadInv(w.dead[i])
  }

  // --- What every event keeps -------------------------------------------------------------------

  ghost predicate GroupShape(n: string, g: Group) {
    && g.name == n
    && (g.path.Some? ==> g.path == Some(GroupPath(n)))
    && forall v :: v in g.volumes ==> VolumeInv(n, v, g.volumes[v])
  }

  ghost predicate LooseShapes(live: map<string, Group>) {
    forall n :: n in live ==> GroupShape(n, live[n])
  }

  // Only volumes differ, and only in that some of another group lost their path.
  ghost predicate OnlyVolumes(live: map<string, Group>, r: map<string, Group>, n: string) {
    && r.Keys == live.Keys
    && (forall m :: m in live ==> r[m] == live[m].(volumes := r[m].volumes))
    && (forall m :: m in live && m != n ==>
          r[m].volumes.Keys == live[m].volumes.Keys &&
          forall v :: v in live[m].volumes ==>
            r[m].volumes[v] == live[m].volumes[v] || r[m].volumes[v] == live[m].volumes[v].(path := None))
  }

  lemma VacateAt(live: map<string, Group>, p: Path)
    ensures var r := VacateVolumes(live, p);
            forall q, m, v :: VolumeAt(r, q, m, v) <==> VolumeAt(live, q, m, v) && q != p
    ensures forall q, m :: GroupAt(VacateVolumes(live, p), q, m) <==> GroupAt(live, q, m)
  {
  }

  lemma VacateShape(live: map<string, Group>, p: Path, n: string)
    requires LooseShapes(live) && Unique(live)
    ensures var r := VacateVolumes(live, p); LooseShapes(r) && Unique(r) && OnlyVolumes(live, r, n)
  {
    VacateAt(live, p);
    VacateLoses(live, p, n);
  }

  lemma VacateLoses(live: map<string, Group>, p: Path, n: string)
    ensures OnlyVolumes(live, VacateVolumes(live, p), n)
    ensures LooseShapes(live) ==> LooseShapes(VacateVolumes(live, p))
  {
  }

  function WithVolume(live: map<string, Group>, n: string, v: string, vol: Volume): map<string, Group>
    requires n in live
  {
    live[n := live[n].(volumes := live[n].volumes[v := vol])]
  }

  lemma WithVolumeAt(live: map<string, Group>, n: string, v: string, vol: Volume)
    requires n in live
    ensures var r := WithVolume(live, n, v, vol);
            && (forall q, m, u :: VolumeAt(r, q, m, u) <==> if m == n && u == v then vol.path == Some(q) else VolumeAt(live, q, m, u))
            && (forall q, m :: GroupAt(r, q, m) <==> GroupAt(live, q, m))
  {
  }

  // Volume v of group n is put in; the path it brings is free.
  lemma PutVolume(live: map<string, Group>, n: string, v: string, vol: Volume)
    requires LooseShapes(live) && Unique(live) && n in live && VolumeInv(n, v, vol)
    requires forall p, m, u :: vol.path == Some(p) && VolumeAt(live, p, m, u) ==> m == n && u == v
    ensures var r := WithVolume(live, n, v, vol); LooseShapes(r) && Unique(r) && OnlyVolumes(live, r, n)
  {
    WithVolumeAt(live, n, v, vol);
  }

  // The path that volume v of group n brings is free once whoever had it has lost it.
  lemma PutVacated(live: map<string, Group>, n: string, v: string, vol: Volume)
    requires LooseShapes(live) && Unique(live) && n in live && VolumeInv(n, v, vol) && vol.path.Some?
    ensures var r := WithVolume(VacateVolumes(live, vol.path.value), n, v, vol);
            LooseShapes(r) && Unique(r) && OnlyVolumes(live, r, n)
  {
    var p := vol.path.value;
    VacateAt(live, p);
    VacateShape(live, p, n);
    PutVolume(VacateVolumes(live, p), n, v, vol);
    OnlyTwice(live, VacateVolumes(live, p), WithVolume(VacateVolumes(live, p), n, v, vol), n);
  }

  lemma UpdatedVolumeInv(live: map<string, Group>, n: string, e: LvInfo)
    requires LooseShapes(live) && n in live
    ensures var g := live[n];
            VolumeInv(n, e.name, UpdateVolume(if e.name in g.volumes then g.volumes[e.name] else NEW_VOLUME, g.path, e))
  {
    assert GroupShape(n, live[n]);
  }

  lemma TakeEntryShape(live: map<string, Group>, n: string, e: LvInfo)
    requires LooseShapes(live) && Unique(live) && n in live
    ensures var r := TakeEntry(live, n, e); LooseShapes(r) && Unique(r) && OnlyVolumes(live, r, n)
  {
    if IsVisible(e.name) {
      var g := live[n];
      var before := if e.name in g.volumes then g.volumes[e.name] else NEW_VOLUME;
      var after := UpdateVolume(before, g.path, e);
      UpdatedVolumeInv(live, n, e);
      if before.needsPublish && after.path.Some? {
        PutVacated(live, n, e.name, after);
      } else {
        assert GroupShape(n, g);
        assert after.path.Some? ==> VolumeAt(live, after.path.value, n, e.name);
        PutVolume(live, n, e.name, after);
      }
    }
  }

  lemma TakeEntryKeys(live: map<string, Group>, n: string, e: LvInfo)
    requires n in live
    ensures n in TakeEntry(live, n, e) &&
            TakeEntry(live, n, e)[n].volumes.Keys == live[n].volumes.Keys + if IsVisible(e.name) then {e.name} else {}
  {
  }

  lemma OnlyTwice(live: map<string, Group>, r: map<string, Group>, s: map<string, Group>, n: string)
    requires OnlyVolumes(live, r, n) && OnlyVolumes(r, s, n)
    ensures OnlyVolumes(live, s, n)
  {
  }

  lemma {:induction false} TakeEntriesShape(live: map<string, Group>, n: string, entries: seq<LvInfo>)
    requires LooseShapes(live) && Unique(live) && n in live
    ensures var r := TakeEntries(live, n, entries);
            && LooseShapes(r) && Unique(r) && OnlyVolumes(live, r, n)
            && r[n].volumes.Keys == live[n].volumes.Keys + VisibleNames(entries)
  {
    if entries != [] {
      TakeEntriesShape(live, n, entries[..|entries| - 1]);
      TakeEntryShape(TakeEntries(live, n, entries[..|entries| - 1]), n, entries[|entries| - 1]);
      TakeEntryKeys(TakeEntries(live, n, entries[..|entries| - 1]), n, entries[|entries| - 1]);
      OnlyTwice(live, TakeEntries(live, n, entries[..|entries| - 1]), TakeEntries(live, n, entries), n);
      MirrorRuns.VisibleNamesOneMore(entries);
    }
  }

  lemma DropAt(live: map<string, Group>, n: string, r: VgInfo)
    requires n in live
    ensures var d := live[n := DropVanished(live[n], r)];
            && (forall q, m, v :: VolumeAt(d, q, m, v) <==> VolumeAt(live, q, m, v) && (m == n ==> v in VisibleNames(r.lvs)))
            && (forall q, m :: GroupAt(d, q, m) <==> GroupAt(live, q, m))
  {
  }

  // The group that the reply is for, and the others.
  lemma ReconciledInv(live: map<string, Group>, all: map<string, Group>, n: string, r: VgInfo, m: string)
    requires Shapes(live) && OnlyVolumes(live, all, n) && LooseShapes(all) && n in live && !live[n].needPublish && m in live
    requires all[n].volumes.Keys >= VisibleNames(r.lvs)
    ensures GroupInv(m, if m == n then DropVanished(all[n], r) else all[m])
  {
    assert GroupInv(m, live[m]) && GroupShape(m, all[m]);
    if m == n { assert DropVanished(all[n], r).volumes.Keys == VisibleNames(r.lvs); }
  }

  lemma DroppedKeepsInv(live: map<string, Group>, all: map<string, Group>, n: string, r: VgInfo)
    requires Shapes(live) && OnlyVolumes(live, all, n) && LooseShapes(all) && n in live && !live[n].needPublish
    requires Unique(all) && all[n].volumes.Keys >= VisibleNames(r.lvs)
    ensures var d := all[n := DropVanished(all[n], r)]; Shapes(d) && Unique(d)
  {
    DropAt(all, n, r);
    forall m | m in live
      ensures GroupInv(m, if m == n then DropVanished(all[n], r) else all[m])
    {
      ReconciledInv(live, all, n, r, m);
    }
  }

  lemma ReconcileKeepsInv(live: map<string, Group>, n: string, r: VgInfo)
    requires Shapes(live) && Unique(live) && n in live && !live[n].needPublish
    ensures var d := Reconcile(live, n, r); Shapes(d) && Unique(d) && d.Keys == live.Keys
  {
    LooseFromShapes(live);
    TakeEntriesShape(live, n, r.lvs);
    DroppedKeepsInv(live, TakeEntries(live, n, r.lvs), n, r);
  }

  lemma LooseFromShapes(live: map<string, Group>)
    requires Shapes(live)
    ensures LooseShapes(live)
  {
  }

  lemma PublishAt(live: map<string, Group>, n: string)
    requires n in live && live[n].name == n && live[n].needPublish && live[n].path.None?
    ensures var r := PublishGroup(live, n);
            && (forall q, m, v :: VolumeAt(r, q, m, v) <==> VolumeAt(live, q, m, v))
            && (forall q, m :: GroupAt(r, q, m) <==> if q == GroupPath(n) then m == n else GroupAt(live, q, m))
  {
  }

  lemma PublishKeepsInv(live: map<string, Group>, n: string)
    requires Shapes(live) && Unique(live) && n in live
    ensures var r := PublishGroup(live, n); Shapes(r) && Unique(r) && !r[n].needPublish
  {
    assert GroupInv(n, live[n]);
    if live[n].needPublish {
      PublishAt(live, n);
      forall m | m in live
        ensures GroupInv(m, PublishGroup(live, n)[m])
      {
        assert GroupInv(m, live[m]);
      }
    }
  }

  lemma SetPropsKeepsInv(live: map<string, Group>, n: string, reply: Reply)
    requires Shapes(live) && Unique(live) && n in live
    ensures var r := SetProps(live, n, reply); Shapes(r) && Unique(r) && r.Keys == live.Keys
  {
    var r := SetProps(live, n, reply);
    assert GroupInv(n, live[n]);
    assert forall q, m, v :: VolumeAt(r, q, m, v) <==> VolumeAt(live, q, m, v);
    assert forall q, m :: GroupAt(r, q, m) <==> GroupAt(live, q, m);
  }

  lemma ShowKeepsInv(w: World, n: string, reply: Reply)
    requires Inv(w) && n in w.live
    ensures Inv(ShowLive(w, n, reply))
  {
    SetPropsKeepsInv(w.live, n, reply);
    PublishKeepsInv(SetProps(w.live, n, reply), n);
    if IsChange(w.live[n], reply) {
      ReconcileKeepsInv(PublishGroup(SetProps(w.live, n, reply), n), n, reply.value);
    }
  }

  lemma KnownKeepsInv(live: map<string, Group>, n: string)
    requires Shapes(live) && Unique(live)
    ensures var known := if n in live then live else live[n := NewGroup(n)]; Shapes(known) && Unique(known)
  {
    var known := if n in live then live else live[n := NewGroup(n)];
    assert forall q, m, v :: VolumeAt(known, q, m, v) <==> VolumeAt(live, q, m, v);
    assert forall q, m :: GroupAt(known, q, m) <==> GroupAt(live, q, m);
  }

  lemma EnsureOneKeepsInv(live: map<string, Group>, n: string, fails: bool)
    requires Shapes(live) && Unique(live)
    ensures var r := EnsureOne(live, n, fails); Shapes(r) && Unique(r) && r.Keys == live.Keys + {n}
  {
    KnownKeepsInv(live, n);
    PublishKeepsInv(if n in live then live else live[n := NewGroup(n)], n);
  }

  lemma {:induction false} EnsureAllKeepsInv(live: map<string, Group>, names: seq<string>, failed: set<nat>)
    requires Shapes(live) && Unique(live)
    ensures var r := EnsureAll(live, names, failed); Shapes(r) && Unique(r) && r.Keys == live.Keys + set n | n in names
  {
    if names != [] {
      var last := |names| - 1;
      EnsureAllKeepsInv(live, names[..last], failed);
      EnsureOneKeepsInv(EnsureAll(live, names[..last], failed), names[last], last in failed);
      assert names == names[..last] + [names[last]];
    }
  }

  lemma {:induction false} RemoveAllKeepsDead(w: World, gone: seq<string>)
    requires Inv(w) && NoRepeats(gone) && forall n :: n in gone ==> n in w.live
    ensures Inv(RemoveAll(w, gone))
  {
    MirrorTheorems.RemoveAllDead(w, gone);
    var w1 := RemoveAll(w, gone);
    assert forall q, m, v :: VolumeAt(w1.live, q, m, v) ==> VolumeAt(w.live, q, m, v);
    assert forall q, m :: GroupAt(w1.live, q, m) ==> GroupAt(w.live, q, m);
    forall i | 0 <= i < |w1.dead|
      ensures MirrorRuns.DeadInv(w1.dead[i])
    {
      if i >= |w.dead| {
        assert w1.dead[i] == Disposed(w.live[gone[i - |w.dead|]]);
      }
    }
  }

  lemma StoreKeepsInv(w: World, t: Target, g: Group, blocks: map<Path, Block>)
    requires Inv(w) && Known(w, t)
    requires t.Dead? ==> MirrorRuns.DeadInv(g)
    requires t.Live? ==> GroupInv(t.name, g) && g.path == w.live[t.name].path && g.volumes.Keys == w.live[t.name].volumes.Keys
    requires t.Live? ==> forall v :: v in g.volumes ==> g.volumes[v].path == w.live[t.name].volumes[v].path
    ensures Inv(Store(w, t, g).(blocks := blocks))
  {
    if t.Live? {
      var r := w.live[t.name := g];
      assert forall q, m, v :: VolumeAt(r, q, m, v) <==> VolumeAt(w.live, q, m, v);
      assert forall q, m :: GroupAt(r, q, m) <==> GroupAt(w.live, q, m);
    }
  }

  // An accepted poll leaves every path where it is.
  lemma {:induction false} PollKeepsPlaces(volumes: map<string, Volume>, gp: Option<Path>, entries: seq<LvInfo>)
    requires forall v :: v in volumes ==> !volumes[v].needsPublish
    ensures var all := PollEntries(volumes, gp, entries);
            all.Keys == volumes.Keys &&
            forall v :: v in all ==> !all[v].needsPublish && all[v].path == volumes[v].path
  {
    if entries != [] {
      PollKeepsPlaces(volumes, gp, entries[..|entries| - 1]);
    }
  }

  /** What every event keeps: an object is at its own place or nowhere, and no two objects of
      a kind are at one place. */
  lemma InvStep(w: World, e: Event)
    requires Inv(w) && Enabled(w, e)
    ensures Inv(Step(w, e))
  {
    match e
    case Show(Live(n), reply) => ShowKeepsInv(w, n, reply);
    case Show(Dead(i), reply) =>
      MirrorRuns.UpdatedKeepsShape(w.dead[i], reply);
      StoreKeepsInv(w, Dead(i), Updated(w.dead[i], reply), Step(w, e).blocks);
    case Poll(t, r) =>
      var g := Find(w, t);
      if t.Live? { assert GroupInv(t.name, g); }
      MirrorRuns.PolledKeepsShape(g, r);
      PollKeepsPlaces(g.volumes, g.path, r.lvs);
      StoreKeepsInv(w, t, Polled(g, r), w.blocks);
    case List(names, gone, failed) =>
      RemoveAllKeepsDead(w, gone);
      EnsureAllKeepsInv(RemoveAll(w, gone).live, names, failed);
    case BlockAdded(_, _, _) =>
    case BlockRemoved(_) =>
    case LastUnref(_) =>
  }

  lemma {:induction false} InvAlways(states: seq<World>, events: seq<Event>, i: nat)
    requires IsRun(states, events) && i < |states|
    ensures Inv(states[i])
  {
    if i > 0 {
      InvAlways(states, events, i - 1);
      InvStep(states[i - 1], events[i - 1]);
    }
  }

  // --- When it makes a difference ---------------------------------------------------------------

  // Without displacement: a volume that is known stays where it is, a new one goes to its place.
  lemma {:induction false} PlainPaths(volumes: map<string, Volume>, gp: Option<Path>, entries: seq<LvInfo>)
    requires forall v :: v in volumes ==> !volumes[v].needsPublish
    ensures var all := AddEntries(volumes, gp, entries);
            && all.Keys == volumes.Keys + VisibleNames(entries)
            && forall v :: v in all ==>
                 !all[v].needsPublish && all[v].path == if v in volumes then volumes[v].path else Child(gp, v)
  {
    if entries != [] {
      PlainPaths(volumes, gp, entries[..|entries| - 1]);
      MirrorRuns.VisibleNamesOneMore(entries);
    }
  }

  // Nobody who stays is at a place where a new volume of group n goes.
  ghost predicate RoomFor(live: map<string, Group>, n: string, gp: Option<Path>, listed: set<string>)
    requires n in live
  {
    forall v, p :: v in listed && v !in live[n].volumes && Child(gp, v) == Some(p) ==>
      && (forall m, u :: VolumeAt(live, p, m, u) ==> m == n && u !in listed)
      && (forall u :: u in listed && u !in live[n].volumes && Child(gp, u) == Some(p) ==> u == v)
  }

  // The volumes are the plain ones, but for some that are about to vanish and lost their path.
  predicate VolumesFollow(volumes: map<string, Volume>, plain: map<string, Volume>, listed: set<string>) {
    && volumes.Keys == plain.Keys
    && forall v :: v in plain ==> volumes[v] == plain[v] || (v !in listed && volumes[v] == plain[v].(path := None))
  }

  ghost predicate Follows(live: map<string, Group>, r: map<string, Group>, n: string, plain: map<string, Volume>, listed: set<string>)
    requires n in live
  {
    n in r && r == live[n := live[n].(volumes := r[n].volumes)] && VolumesFollow(r[n].volumes, plain, listed)
  }

  function WithEntry(volumes: map<string, Volume>, gp: Option<Path>, e: LvInfo): map<string, Volume> {
    if !IsVisible(e.name) then volumes
    else volumes[e.name := UpdateVolume(if e.name in volumes then volumes[e.name] else NEW_VOLUME, gp, e)]
  }

  // Where nobody is, nobody loses a path.
  lemma NobodyLoses(g: Group, p: Path)
    requires forall u :: u in g.volumes ==> g.volumes[u].path != Some(p)
    ensures g.(volumes := map v | v in g.volumes :: Lose(g.volumes[v], p)) == g
  {
    assert (map v | v in g.volumes :: Lose(g.volumes[v], p)) == g.volumes;
  }

  lemma NobodyIsThere(live: map<string, Group>, p: Path, m: string)
    requires m in live && forall u :: !VolumeAt(live, p, m, u)
    ensures forall u :: u in live[m].volumes ==> live[m].volumes[u].path != Some(p)
  {
    forall u | u in live[m].volumes
      ensures live[m].volumes[u].path != Some(p)
    {
      assert !VolumeAt(live, p, m, u);
    }
  }

  lemma OthersKeep(live: map<string, Group>, r: map<string, Group>, n: string, p: Path)
    requires n in live && n in r && r == live[n := live[n].(volumes := r[n].volumes)]
    requires forall m, u :: VolumeAt(live, p, m, u) ==> m == n
    ensures var s := VacateVolumes(r, p); s == live[n := live[n].(volumes := s[n].volumes)]
  {
    var s := VacateVolumes(r, p);
    forall m | m in live && m != n
      ensures s[m] == live[m]
    {
      assert r[m] == live[m];
      NobodyIsThere(live, p, m);
      NobodyLoses(live[m], p);
    }
    OneDiffers(live, s, n, live[n].(volumes := s[n].volumes));
  }

  lemma OneDiffers(live: map<string, Group>, s: map<string, Group>, n: string, g: Group)
    requires n in live && s.Keys == live.Keys && s[n] == g && forall m :: m in live && m != n ==> s[m] == live[m]
    ensures s == live[n := g]
  {
  }

  lemma VanishingLose(volumes: map<string, Volume>, plain: map<string, Volume>, p: Path, listed: set<string>)
    requires VolumesFollow(volumes, plain, listed)
    requires forall u :: u in plain && u in listed ==> plain[u].path != Some(p)
    ensures VolumesFollow(map v | v in volumes :: Lose(volumes[v], p), plain, listed)
  {
  }

  lemma NobodyListed(live: map<string, Group>, n: string, prefix: seq<LvInfo>, v: string, p: Path, listed: set<string>)
    requires n in live && RoomFor(live, n, live[n].path, listed) && VisibleNames(prefix) <= listed
    requires forall u :: u in live[n].volumes ==> !live[n].volumes[u].needsPublish
    requires v in listed && v !in live[n].volumes && v !in VisibleNames(prefix) && Child(live[n].path, v) == Some(p)
    ensures forall m, u :: VolumeAt(live, p, m, u) ==> m == n
    ensures var plain := AddEntries(live[n].volumes, live[n].path, prefix);
            forall u :: u in plain && u in listed ==> plain[u].path != Some(p)
  {
    PlainPaths(live[n].volumes, live[n].path, prefix);
    var plain := AddEntries(live[n].volumes, live[n].path, prefix);
    forall u | u in plain && u in listed
      ensures plain[u].path != Some(p)
    {
      if plain[u].path == Some(p) && u in live[n].volumes { assert VolumeAt(live, p, n, u); }
    }
  }

  lemma FollowsOne(live: map<string, Group>, r: map<string, Group>, n: string, prefix: seq<LvInfo>, e: LvInfo, listed: set<string>)
    requires n in live && RoomFor(live, n, live[n].path, listed) && VisibleNames(prefix) <= listed
    requires (forall v :: v in live[n].volumes ==> !live[n].volumes[v].needsPublish) && (IsVisible(e.name) ==> e.name in listed)
    requires Follows(live, r, n, AddEntries(live[n].volumes, live[n].path, prefix), listed)
    ensures Follows(live, TakeEntry(r, n, e), n, WithEntry(AddEntries(live[n].volumes, live[n].path, prefix), live[n].path, e), listed)
  {
    if IsVisible(e.name) {
      var plain := AddEntries(live[n].volumes, live[n].path, prefix);
      PlainPaths(live[n].volumes, live[n].path, prefix);
      var p := Child(live[n].path, e.name);
      if e.name !in plain && p.Some? {
        NobodyListed(live, n, prefix, e.name, p.value, listed);
        OthersKeep(live, r, n, p.value);
        VanishingLose(r[n].volumes, plain, p.value, listed);
        PutFollows(live, VacateVolumes(r, p.value), n, plain, e.name, UpdateVolume(NEW_VOLUME, live[n].path, e), listed);
      } else if e.name !in plain {
        PutFollows(live, r, n, plain, e.name, UpdateVolume(NEW_VOLUME, live[n].path, e), listed);
      } else {
        PutFollows(live, r, n, plain, e.name, UpdateVolume(plain[e.name], live[n].path, e), listed);
      }
    }
  }

  lemma PutFollows(live: map<string, Group>, r: map<string, Group>, n: string, plain: map<string, Volume>,
                   v: string, vol: Volume, listed: set<string>)
    requires n in live && Follows(live, r, n, plain, listed)
    ensures Follows(live, WithVolume(r, n, v, vol), n, plain[v := vol], listed)
  {
  }

  lemma {:induction false} FollowsAll(live: map<string, Group>, n: string, entries: seq<LvInfo>, listed: set<string>)
    requires n in live && RoomFor(live, n, live[n].path, listed) && VisibleNames(entries) <= listed
    requires forall v :: v in live[n].volumes ==> !live[n].volumes[v].needsPublish
    ensures Follows(live, TakeEntries(live, n, entries), n, AddEntries(live[n].volumes, live[n].path, entries), listed)
  {
    if entries != [] {
      var last := |entries| - 1;
      MirrorRuns.VisibleNamesOneMore(entries);
      FollowsAll(live, n, entries[..last], listed);
      FollowsOne(live, TakeEntries(live, n, entries[..last]), n, entries[..last], entries[last], listed);
    } else {
      assert live == live[n := live[n]];
    }
  }

  lemma ReconcilePlain(live: map<string, Group>, n: string, r: VgInfo)
    requires n in live && RoomFor(live, n, live[n].path, VisibleNames(r.lvs))
    requires forall v :: v in live[n].volumes ==> !live[n].volumes[v].needsPublish
    ensures Reconcile(live, n, r) == live[n := FullPass(live[n], r)]
  {
    FollowsAll(live, n, r.lvs, VisibleNames(r.lvs));
    var all := TakeEntries(live, n, r.lvs);
    assert DropVanished(all[n], r).volumes == VolumesAfter(live[n].volumes, live[n].path, r.lvs);
  }

  lemma PublishPlain(live: map<string, Group>, n: string)
    requires n in live && live[n].name == n
    requires live[n].needPublish ==> forall m :: GroupAt(live, GroupPath(n), m) ==> m == n
    ensures PublishGroup(live, n) == live[n := Published(live[n])]
  {
    if live[n].needPublish {
      forall m | m in live && m != n
        ensures live[m].path != Some(GroupPath(n))
      {
        assert GroupAt(live, GroupPath(n), m) <==> live[m].path == Some(GroupPath(n));
      }
    } else {
      assert live == live[n := live[n]];
    }
  }

  // If nothing shares a path in the end, there was room for everything.
  lemma ThereWasRoom(live: map<string, Group>, n: string, r: VgInfo)
    requires n in live && Unique(live[n := FullPass(live[n], r)])
    requires forall v :: v in live[n].volumes ==> !live[n].volumes[v].needsPublish
    ensures RoomFor(live, n, live[n].path, VisibleNames(r.lvs))
  {
    var s := live[n := FullPass(live[n], r)];
    PlainPaths(live[n].volumes, live[n].path, r.lvs);
    forall v, p | v in VisibleNames(r.lvs) && v !in live[n].volumes && Child(live[n].path, v) == Some(p)
      ensures forall m, u :: VolumeAt(live, p, m, u) ==> m == n && u !in VisibleNames(r.lvs)
      ensures forall u :: u in VisibleNames(r.lvs) && u !in live[n].volumes && Child(live[n].path, u) == Some(p) ==> u == v
    {
      assert VolumeAt(s, p, n, v);
      forall m, u | VolumeAt(live, p, m, u)
        ensures m == n && u !in VisibleNames(r.lvs)
      {
        if m != n || u in VisibleNames(r.lvs) { assert VolumeAt(s, p, m, u); }
      }
      forall u | u in VisibleNames(r.lvs) && u !in live[n].volumes && Child(live[n].path, u) == Some(p)
        ensures u == v
      {
        assert VolumeAt(s, p, n, u);
      }
    }
  }

  lemma ReceivedSame(w: World, n: string, reply: Reply)
    requires Inv(w) && n in w.live && GroupsApart(w.live[n := Updated(w.live[n], reply)])
    ensures PublishGroup(SetProps(w.live, n, reply), n) ==
              w.live[n := if reply.Success? then Received(w.live[n], reply.value) else Published(w.live[n])]
  {
    var g, s := w.live[n], w.live[n := Updated(w.live[n], reply)];
    assert GroupInv(n, g);
    var live0 := SetProps(w.live, n, reply);
    if g.needPublish {
      assert GroupAt(s, GroupPath(n), n);
      forall m | GroupAt(live0, GroupPath(n), m)
        ensures m == n
      {
        assert GroupAt(s, GroupPath(n), m);
      }
    }
    PublishPlain(live0, n);
  }

  lemma ShowSame(w: World, n: string, reply: Reply)
    requires Inv(w) && n in w.live && Unique(w.live[n := Updated(w.live[n], reply)])
    ensures ShowLive(w, n, reply) == MirrorState.Step(w, Show(Live(n), reply))
  {
    assert GroupInv(n, w.live[n]);
    ReceivedSame(w, n, reply);
    var live1 := PublishGroup(SetProps(w.live, n, reply), n);
    if IsChange(w.live[n], reply) {
      assert live1[n := FullPass(live1[n], reply.value)] == w.live[n := Updated(w.live[n], reply)];
      ThereWasRoom(live1, n, reply.value);
      ReconcilePlain(live1, n, reply.value);
    }
  }

  function AddOne(live: map<string, Group>, n: string, fails: bool): map<string, Group> {
    var g := if n in live then live[n] else NewGroup(n);
    live[n := if fails then Updated(g, Failure("")) else g]
  }

  lemma AddOneKeepsAt(live: map<string, Group>, n: string, fails: bool)
    requires Shapes(live)
    ensures var r := AddOne(live, n, fails);
            && Shapes(r)
            && (forall q, m :: GroupAt(live, q, m) ==> GroupAt(r, q, m))
            && (forall q, m, v :: VolumeAt(live, q, m, v) <==> VolumeAt(r, q, m, v))
  {
    if n in live { assert GroupInv(n, live[n]); }
  }

  lemma EnsureOnePlain(live: map<string, Group>, n: string, fails: bool)
    requires Shapes(live) && Unique(AddOne(live, n, fails))
    ensures EnsureOne(live, n, fails) == AddOne(live, n, fails)
  {
    AddOneKeepsAt(live, n, fails);
    var known := if n in live then live else live[n := NewGroup(n)];
    assert GroupInv(n, known[n]);
    if fails {
      if known[n].needPublish {
        assert GroupAt(AddOne(live, n, fails), GroupPath(n), n);
        forall m | GroupAt(known, GroupPath(n), m)
          ensures m == n
        {
          assert GroupAt(live, GroupPath(n), m);
        }
      }
      PublishPlain(known, n);
      assert known[n := Published(known[n])] == AddOne(live, n, fails);
    } else {
      assert known == AddOne(live, n, fails);
    }
  }

  lemma {:induction false} EnsureAllPlain(live: map<string, Group>, names: seq<string>, failed: set<nat>)
    requires Shapes(live) && Unique(AddGroups(live, names, failed))
    ensures EnsureAll(live, names, failed) == AddGroups(live, names, failed) && Shapes(AddGroups(live, names, failed))
  {
    if names != [] {
      var last := |names| - 1;
      var before := AddGroups(live, names[..last], failed);
      AddGroupsShapes(live, names[..last], failed);
      AddOneKeepsAt(before, names[last], last in failed);
      EnsureAllPlain(live, names[..last], failed);
      EnsureOnePlain(before, names[last], last in failed);
    }
  }

  lemma {:induction false} AddGroupsShapes(live: map<string, Group>, names: seq<string>, failed: set<nat>)
    requires Shapes(live)
    ensures Shapes(AddGroups(live, names, failed))
  {
    if names != [] {
      var last := |names| - 1;
      AddGroupsShapes(live, names[..last], failed);
      AddOneKeepsAt(AddGroups(live, names[..last], failed), names[last], last in failed);
    }
  }

  /** The two steps agree exactly if, after the step without displacement, nothing shares a path. */
  lemma SameStep(w: World, e: Event)
    requires Inv(w) && Enabled(w, e)
    ensures Step(w, e) == MirrorState.Step(w, e) <==> Unique(MirrorState.Step(w, e).live)
  {
    InvStep(w, e);
    if Unique(MirrorState.Step(w, e).live) {
      match e
      case Show(Live(n), reply) => ShowSame(w, n, reply);
      case List(names, gone, failed) =>
        RemoveAllKeepsDead(w, gone);
        EnsureAllPlain(RemoveAll(w, gone).live, names, failed);
      case _ =>
    }
  }
}
