/** Names and displacement: as long as names are apart, the daemon's runs are those of
    `MirrorRuns`, and where two names collide, exactly then an object is displaced. What that
    does to the volumes below a displaced group. */
module Collisions {
  import opened Wrappers
  import opened LvmNames
  import opened MirrorState
  import opened Displacement
  import MirrorRuns
  import MirrorTheorems
  import ObjectPath

  // --- Names that are apart ---------------------------------------------------------------------

  ghost predicate NamesApart(names: set<string>) {
    && (forall v :: v in names ==> ObjectPath.IsCString(v))
    && (forall v, u :: v in names && u in names && ObjectPath.Decode(v) == ObjectPath.Decode(u) ==> v == u)
  }

  /** The live groups decode to different names, and so do the volumes of each. */
  ghost predicate Apart(w: World) {
    NamesApart(w.live.Keys) && forall n :: n in w.live ==> NamesApart(w.live[n].volumes.Keys)
  }

  lemma PlaceMeans(n: string, v: string)
    ensures Place(n, v).Some? ==> n != "" && Place(n, v).value == ObjectPath.Build(GroupPath(n), [v])
    ensures n != "" ==> Place(n, v).Some?
  {
    if n == "" {
      assert GroupPath(n)[|GroupPath(n)| - 1] == '/' by { EmptyName(); }
    } else {
      ParentPath(n);
    }
  }

  lemma EmptyName()
    ensures GroupPath("") == LVM_BASE + "/"
  {
    ObjectPath.ElementsOneMore(LVM_BASE, [""], 0);
    assert [""][0..] == [""] && [""][1..] == [];
    assert ObjectPath.Elements([]) == "" && ObjectPath.Encode("") == "";
  }

  lemma ParentPath(n: string)
    requires n != ""
    ensures GroupPath(n)[|GroupPath(n)| - 1] != '/'
  {
    ObjectPath.EncodeIsSafe(n);
    MirrorRuns.ChildPath(Some(LVM_BASE), n);
    assert GroupPath(n) == LVM_BASE + "/" + ObjectPath.Encode(n);
    assert GroupPath(n)[|GroupPath(n)| - 1] == ObjectPath.Encode(n)[|ObjectPath.Encode(n)| - 1];
  }

  lemma SamePlace(m: string, v: string, n: string, u: string)
    requires ObjectPath.IsCString(m) && ObjectPath.IsCString(n) && ObjectPath.IsCString(v) && ObjectPath.IsCString(u)
    requires Place(m, v).Some? && Place(n, u).Some?
    ensures Place(m, v) == Place(n, u) <==>
            ObjectPath.Decode(m) == ObjectPath.Decode(n) && ObjectPath.Decode(v) == ObjectPath.Decode(u)
  {
    PlaceMeans(m, v);
    PlaceMeans(n, u);
    MirrorTheorems.SameVolumePath(m, n, v, u);
  }

  /** Objects whose names are apart do not share a path. */
  lemma ApartIsUnique(w: World)
    requires LooseShapes(w.live) && Apart(w)
    ensures Unique(w.live)
  {
    forall p, m, n | GroupAt(w.live, p, m) && GroupAt(w.live, p, n)
      ensures m == n
    {
      assert GroupShape(m, w.live[m]) && GroupShape(n, w.live[n]);
      MirrorTheorems.SameGroupPath(m, n);
    }
    forall p, m, v, n, u | VolumeAt(w.live, p, m, v) && VolumeAt(w.live, p, n, u)
      ensures m == n && v == u
    {
      assert VolumeInv(m, v, w.live[m].volumes[v]) && VolumeInv(n, u, w.live[n].volumes[u]);
      assert NamesApart(w.live[m].volumes.Keys) && NamesApart(w.live[n].volumes.Keys);
      SamePlace(m, v, n, u);
    }
  }

  lemma PlainShapes(w: World)
    requires MirrorRuns.Inv(w)
    ensures Shapes(w.live) && LooseShapes(w.live)
  {
    forall n | n in w.live
      ensures GroupInv(n, w.live[n]) && GroupShape(n, w.live[n])
    {
      assert MirrorRuns.LiveInv(n, w.live[n]);
    }
  }

  ghost predicate SameInfo(live: map<string, Group>, r: map<string, Group>) {
    live.Keys == r.Keys && forall n :: n in live ==> live[n].info == r[n].info
  }

  lemma EnsureOneInfo(live: map<string, Group>, r: map<string, Group>, n: string, fails: bool)
    requires SameInfo(live, r)
    ensures SameInfo(EnsureOne(live, n, fails), AddOne(r, n, fails))
  {
    var known := if n in live then live else live[n := NewGroup(n)];
    PublishInfo(known, n);
    AddOneInfo(known, r, n, fails);
  }

  lemma AddOneInfo(known: map<string, Group>, r: map<string, Group>, n: string, fails: bool)
    requires known.Keys == r.Keys + {n} && (n in r ==> known[n].info == r[n].info) && (n !in r ==> known[n] == NewGroup(n))
    requires forall m :: m in r && m != n ==> known[m].info == r[m].info
    ensures SameInfo(known, AddOne(r, n, fails))
  {
    UpdatedInfo(if n in r then r[n] else NewGroup(n), Failure(""));
  }

  lemma {:induction false} EnsureAllInfo(live: map<string, Group>, names: seq<string>, failed: set<nat>)
    ensures SameInfo(EnsureAll(live, names, failed), AddGroups(live, names, failed))
  {
    if names != [] {
      var last := |names| - 1;
      EnsureAllInfo(live, names[..last], failed);
      EnsureOneInfo(EnsureAll(live, names[..last], failed), AddGroups(live, names[..last], failed), names[last], last in failed);
    }
  }

  lemma PublishInfo(live: map<string, Group>, n: string)
    requires n in live
    ensures SameInfo(PublishGroup(live, n), live)
  {
  }

  lemma ReconcileInfo(live: map<string, Group>, n: string, r: VgInfo)
    requires LooseShapes(live) && Unique(live) && n in live
    ensures Reconcile(live, n, r).Keys == live.Keys && Reconcile(live, n, r)[n].info == Some(r)
    ensures forall m :: m in live && m != n ==> Reconcile(live, n, r)[m].info == live[m].info
  {
    TakeEntriesShape(live, n, r.lvs);
  }

  lemma SetPropsInfo(live: map<string, Group>, n: string, reply: Reply)
    requires n in live
    ensures SameInfo(SetProps(live, n, reply), live)
  {
  }

  lemma UpdatedInfo(g: Group, reply: Reply)
    ensures Updated(g, reply).info == if IsChange(g, reply) then Some(reply.value) else g.info
  {
  }

  lemma ChangedInfo(live: map<string, Group>, r: map<string, Group>, d: map<string, Group>, n: string, g: Group)
    requires SameInfo(live, r) && n in live && d.Keys == live.Keys && d[n].info == g.info
    requires forall m :: m in live && m != n ==> d[m].info == live[m].info
    ensures SameInfo(d, r[n := g])
  {
  }

  lemma ReceivedInfo(live: map<string, Group>, n: string, reply: Reply)
    requires n in live
    ensures SameInfo(PublishGroup(SetProps(live, n, reply), n), live)
  {
    SetPropsInfo(live, n, reply);
    PublishInfo(SetProps(live, n, reply), n);
  }

  lemma ShowInfo(w: World, n: string, reply: Reply)
    requires Inv(w) && n in w.live
    ensures SameInfo(ShowLive(w, n, reply).live, w.live[n := Updated(w.live[n], reply)])
  {
    var live1 := PublishGroup(SetProps(w.live, n, reply), n);
    SetPropsKeepsInv(w.live, n, reply);
    PublishKeepsInv(SetProps(w.live, n, reply), n);
    ReceivedInfo(w.live, n, reply);
    UpdatedInfo(w.live[n], reply);
    if IsChange(w.live[n], reply) {
      LooseFromShapes(live1);
      ReconcileInfo(live1, n, reply.value);
      ChangedInfo(live1, w.live, Reconcile(live1, n, reply.value), n, Updated(w.live[n], reply));
    } else {
      ChangedInfo(live1, w.live, live1, n, Updated(w.live[n], reply));
    }
  }

  lemma StepInfo(w: World, e: Event)
    requires Inv(w) && Enabled(w, e)
    ensures SameInfo(Displacement.Step(w, e).live, MirrorState.Step(w, e).live)
  {
    match e
    case Show(Live(n), reply) => ShowInfo(w, n, reply);
    case List(names, gone, failed) => EnsureAllInfo(RemoveAll(w, gone).live, names, failed);
    case _ =>
  }

  lemma ApartStep(w: World, e: Event)
    requires MirrorRuns.Inv(w) && Inv(w) && Enabled(w, e) && Apart(Displacement.Step(w, e))
    ensures Displacement.Step(w, e) == MirrorState.Step(w, e) && MirrorRuns.Inv(Displacement.Step(w, e))
  {
    MirrorRuns.InvStep(w, e);
    PlainShapes(MirrorState.Step(w, e));
    InvStep(w, e);
    StepInfo(w, e);
    var s, t := MirrorState.Step(w, e), Displacement.Step(w, e);
    forall n | n in s.live
      ensures s.live[n].volumes.Keys == t.live[n].volumes.Keys
    {
      assert GroupInv(n, s.live[n]) && GroupInv(n, t.live[n]);
    }
    assert Apart(s);
    ApartIsUnique(s);
    SameStep(w, e);
  }

  ghost predicate AlwaysApart(states: seq<World>) {
    forall i :: 0 <= i < |states| ==> Apart(states[i])
  }

  lemma {:induction false} ApartSoFar(states: seq<World>, events: seq<Event>, i: nat)
    requires IsRun(states, events) && AlwaysApart(states) && i < |states|
    ensures MirrorRuns.Inv(states[i])
    ensures forall j :: 0 <= j < i ==> states[j + 1] == MirrorState.Step(states[j], events[j])
  {
    if i > 0 {
      ApartSoFar(states, events, i - 1);
      InvAlways(states, events, i - 1);
      ApartStep(states[i - 1], events[i - 1]);
    }
  }

  /** As long as names are apart, the daemon's runs are those of `MirrorRuns`: every result about
      them is one about the daemon. */
  lemma ApartRuns(states: seq<World>, events: seq<Event>)
    requires IsRun(states, events) && AlwaysApart(states)
    ensures MirrorRuns.IsRun(states, events) && MirrorTheorems.AlwaysDistinct(states)
  {
    ApartSoFar(states, events, |states| - 1);
  }

  // --- Exactly when objects are displaced -------------------------------------------------------

  predicate Alike(m: string, n: string) {
    ObjectPath.Decode(m) == ObjectPath.Decode(n)
  }

  predicate Publishes(live: map<string, Group>, n: string) {
    n !in live || live[n].needPublish
  }

  /** The event puts an object on the bus next to one of the same kind whose name, and whose
      group's name, decodes to the same, and both are there afterwards. */
  ghost predicate Collides(w: World, e: Event)
    requires Enabled(w, e)
  {
    match e
    case Show(Live(n), reply) =>
      || (Publishes(w.live, n) && exists m :: m in w.live && m != n && w.live[m].path.Some? && Alike(m, n))
      || (IsChange(w.live[n], reply) && n != "" &&
          exists v, u :: v in VisibleNames(reply.value.lvs) && u in VisibleNames(reply.value.lvs) && u != v &&
                         v !in w.live[n].volumes && Alike(v, u))
    case List(names, gone, failed) =>
      exists k, m :: k in MirrorRuns.FailedNames(names, failed) && m in names && m != k && Alike(k, m) && Publishes(w.live, k) &&
                     (m in MirrorRuns.FailedNames(names, failed) || (m in w.live && w.live[m].path.Some?))
    case _ => false
  }

  // Names are C strings, in the world and in what the helper prints.
  ghost predicate CNames(w: World, e: Event) {
    && (forall n :: n in w.live ==> ObjectPath.IsCString(n))
    && (forall n, v :: n in w.live && v in w.live[n].volumes ==> ObjectPath.IsCString(v))
    && (e.List? ==> forall n :: n in e.names ==> ObjectPath.IsCString(n))
    && (e.Show? && e.reply.Success? ==> forall v :: v in VisibleNames(e.reply.value.lvs) ==> ObjectPath.IsCString(v))
  }

  // In a world without displacement everything that is published is at its place.
  lemma PlainAt(w: World, n: string)
    requires MirrorRuns.Inv(w) && n in w.live
    ensures forall p :: GroupAt(w.live, p, n) <==> !w.live[n].needPublish && p == GroupPath(n)
    ensures forall p, v :: VolumeAt(w.live, p, n, v) <==>
              v in w.live[n].volumes && !w.live[n].needPublish && Place(n, v) == Some(p)
  {
    assert MirrorRuns.LiveInv(n, w.live[n]);
  }

  lemma ShownAt(w: World, n: string, reply: Reply)
    requires MirrorRuns.Inv(w) && n in w.live
    ensures var s := w.live[n := Updated(w.live[n], reply)];
            && (forall p :: GroupAt(s, p, n) <==> p == GroupPath(n))
            && (forall p, v :: VolumeAt(s, p, n, v) <==>
                  Place(n, v) == Some(p) &&
                  v in if IsChange(w.live[n], reply) then VisibleNames(reply.value.lvs) else w.live[n].volumes.Keys)
            && (forall p, m :: m != n ==> (GroupAt(s, p, m) <==> GroupAt(w.live, p, m)))
            && (forall p, m, v :: m != n ==> (VolumeAt(s, p, m, v) <==> VolumeAt(w.live, p, m, v)))
  {
    assert MirrorRuns.LiveInv(n, w.live[n]);
    MirrorRuns.UpdatedKeepsShape(w.live[n], reply);
    assert MirrorRuns.LiveInv(n, Updated(w.live[n], reply));
  }

  lemma CollisionShares(w: World, n: string, reply: Reply)
    requires MirrorRuns.Inv(w) && n in w.live && CNames(w, Show(Live(n), reply)) && Collides(w, Show(Live(n), reply))
    ensures !Unique(w.live[n := Updated(w.live[n], reply)])
  {
    var s := w.live[n := Updated(w.live[n], reply)];
    ShownAt(w, n, reply);
    if Publishes(w.live, n) && exists m :: m in w.live && m != n && w.live[m].path.Some? && Alike(m, n) {
      var m :| m in w.live && m != n && w.live[m].path.Some? && Alike(m, n);
      PlainAt(w, m);
      assert MirrorRuns.LiveInv(m, w.live[m]);
      MirrorTheorems.SameGroupPath(m, n);
      assert GroupAt(s, GroupPath(n), m) && GroupAt(s, GroupPath(n), n);
    } else {
      var v, u :| v in VisibleNames(reply.value.lvs) && u in VisibleNames(reply.value.lvs) && u != v &&
                  v !in w.live[n].volumes && Alike(v, u);
      PlaceMeans(n, v);
      PlaceMeans(n, u);
      SamePlace(n, v, n, u);
      assert VolumeAt(s, Place(n, v).value, n, v) && VolumeAt(s, Place(n, v).value, n, u);
    }
  }

  // Group m is exported at the path that group n has after the reply.
  lemma OtherGroup(w: World, n: string, m: string)
    requires MirrorRuns.Inv(w) && GroupsApart(w.live) && n in w.live && m in w.live && m != n
    requires ObjectPath.IsCString(n) && ObjectPath.IsCString(m) && !w.live[m].needPublish && Alike(m, n)
    ensures w.live[n].needPublish && w.live[m].path.Some?
  {
    assert MirrorRuns.LiveInv(m, w.live[m]) && MirrorRuns.LiveInv(n, w.live[n]);
    MirrorTheorems.SameGroupPath(m, n);
    assert GroupAt(w.live, GroupPath(n), m);
    assert !w.live[n].needPublish ==> GroupAt(w.live, GroupPath(n), n);
  }

  lemma SharedGroup(w: World, n: string, reply: Reply, p: Path, m: string)
    requires MirrorRuns.Inv(w) && Unique(w.live) && n in w.live && CNames(w, Show(Live(n), reply)) && m != n
    requires var s := w.live[n := Updated(w.live[n], reply)]; GroupAt(s, p, n) && GroupAt(s, p, m)
    ensures Collides(w, Show(Live(n), reply))
  {
    ShownAt(w, n, reply);
    PlainAt(w, m);
    MirrorTheorems.SameGroupPath(m, n);
    OtherGroup(w, n, m);
  }

  lemma OthersVolume(w: World, n: string, reply: Reply, p: Path, v: string, m: string, u: string)
    requires MirrorRuns.Inv(w) && Unique(w.live) && n in w.live && CNames(w, Show(Live(n), reply)) && m != n
    requires ObjectPath.IsCString(v)
    requires Place(n, v) == Some(p) && VolumeAt(w.live, p, m, u)
    ensures Collides(w, Show(Live(n), reply))
  {
    PlainAt(w, m);
    SamePlace(n, v, m, u);
    OtherGroup(w, n, m);
  }

  lemma NotBothThere(w: World, n: string, p: Path, v: string, u: string)
    requires MirrorRuns.Inv(w) && VolumesApart(w.live) && n in w.live && u != v
    requires Place(n, v) == Some(p) && Place(n, u) == Some(p)
    ensures v !in w.live[n].volumes || u !in w.live[n].volumes
  {
    assert MirrorRuns.LiveInv(n, w.live[n]);
    PlainAt(w, n);
    assert VolumeAt(w.live, p, n, v) && VolumeAt(w.live, p, n, u) ==> v == u;
  }

  lemma OwnVolume(w: World, n: string, r: VgInfo, p: Path, v: string, u: string)
    requires n in w.live && n != "" && IsChange(w.live[n], Success(r)) && u != v && Alike(v, u)
    requires v in VisibleNames(r.lvs) && u in VisibleNames(r.lvs)
    requires v !in w.live[n].volumes || u !in w.live[n].volumes
    ensures Collides(w, Show(Live(n), Success(r)))
  {
    if v in w.live[n].volumes {
      assert u in VisibleNames(r.lvs) && v in VisibleNames(r.lvs) && v != u && u !in w.live[n].volumes && Alike(u, v);
    } else {
      assert v in VisibleNames(r.lvs) && u in VisibleNames(r.lvs) && u != v && v !in w.live[n].volumes && Alike(v, u);
    }
  }

  lemma SharedVolume(w: World, n: string, reply: Reply, p: Path, v: string, m: string, u: string)
    requires MirrorRuns.Inv(w) && Unique(w.live) && n in w.live && CNames(w, Show(Live(n), reply)) && (m != n || u != v)
    requires var s := w.live[n := Updated(w.live[n], reply)]; VolumeAt(s, p, n, v) && VolumeAt(s, p, m, u)
    ensures Collides(w, Show(Live(n), reply))
  {
    ShownAt(w, n, reply);
    if m != n {
      OthersVolume(w, n, reply, p, v, m, u);
    } else {
      NotBothThere(w, n, p, v, u);
      PlaceMeans(n, v);
      SamePlace(n, v, n, u);
      OwnVolume(w, n, reply.value, p, v, u);
    }
  }

  lemma ShowCollides(w: World, n: string, reply: Reply)
    requires MirrorRuns.Inv(w) && Unique(w.live) && n in w.live && CNames(w, Show(Live(n), reply))
    ensures Unique(w.live[n := Updated(w.live[n], reply)]) <==> !Collides(w, Show(Live(n), reply))
  {
    var s := w.live[n := Updated(w.live[n], reply)];
    if Collides(w, Show(Live(n), reply)) {
      CollisionShares(w, n, reply);
    } else {
      ShownAt(w, n, reply);
      forall p, k, m | GroupAt(s, p, k) && GroupAt(s, p, m)
        ensures k == m
      {
        if k != m && k == n { SharedGroup(w, n, reply, p, m); }
        if k != m && m == n { SharedGroup(w, n, reply, p, k); }
      }
      forall p, k, v, m, u | VolumeAt(s, p, k, v) && VolumeAt(s, p, m, u)
        ensures k == m && v == u
      {
        if (k != m || v != u) && k == n { SharedVolume(w, n, reply, p, v, m, u); }
        if (k != m || v != u) && m == n { SharedVolume(w, n, reply, p, u, k, v); }
      }
    }
  }

  lemma ListedAt(w: World, names: seq<string>, gone: seq<string>, failed: set<nat>)
    requires MirrorRuns.Inv(w) && Enabled(w, List(names, gone, failed))
    ensures var s := Listed(w, names, gone, failed).live;
            && (forall p, n :: GroupAt(s, p, n) <==>
                  n in names && (GroupAt(w.live, p, n) ||
                                 (n in MirrorRuns.FailedNames(names, failed) && Publishes(w.live, n) && p == GroupPath(n))))
            && (forall p, n, v :: VolumeAt(s, p, n, v) ==> VolumeAt(w.live, p, n, v))
  {
    MirrorRuns.ListedLive(w, names, gone, failed);
    var s := Listed(w, names, gone, failed).live;
    forall n | n in s
      ensures n in w.live ==> MirrorRuns.LiveInv(n, w.live[n])
    {
    }
  }

  lemma ListCollisionShares(w: World, names: seq<string>, gone: seq<string>, failed: set<nat>, k: string, m: string)
    requires MirrorRuns.Inv(w) && Enabled(w, List(names, gone, failed)) && CNames(w, List(names, gone, failed))
    requires k in MirrorRuns.FailedNames(names, failed) && m in names && m != k && Alike(k, m) && Publishes(w.live, k)
    requires m in MirrorRuns.FailedNames(names, failed) || (m in w.live && w.live[m].path.Some?)
    ensures !GroupsApart(Listed(w, names, gone, failed).live)
  {
    var s := Listed(w, names, gone, failed).live;
    ListedAt(w, names, gone, failed);
    MirrorTheorems.SameGroupPath(k, m);
    assert m in w.live ==> MirrorRuns.LiveInv(m, w.live[m]);
    assert GroupAt(s, GroupPath(k), k) && GroupAt(s, GroupPath(k), m);
  }

  lemma ListShared(w: World, names: seq<string>, gone: seq<string>, failed: set<nat>, p: Path, k: string, m: string)
    requires MirrorRuns.Inv(w) && GroupsApart(w.live) && Enabled(w, List(names, gone, failed)) && CNames(w, List(names, gone, failed))
    requires var s := Listed(w, names, gone, failed).live; GroupAt(s, p, k) && GroupAt(s, p, m) && k != m
    ensures Collides(w, List(names, gone, failed))
  {
    ListedAt(w, names, gone, failed);
    AtItsPath(w, p, k);
    AtItsPath(w, p, m);
    MirrorTheorems.SameGroupPath(k, m);
    if GroupAt(w.live, p, k) {
      NewCollides(w, names, gone, failed, m, k);
    } else {
      NewCollides(w, names, gone, failed, k, m);
    }
  }

  lemma NewCollides(w: World, names: seq<string>, gone: seq<string>, failed: set<nat>, k: string, m: string)
    requires Enabled(w, List(names, gone, failed))
    requires k in MirrorRuns.FailedNames(names, failed) && m in names && m != k && Alike(k, m) && Publishes(w.live, k)
    requires m in MirrorRuns.FailedNames(names, failed) || (m in w.live && w.live[m].path.Some?)
    ensures Collides(w, List(names, gone, failed))
  {
  }

  lemma AtItsPath(w: World, p: Path, n: string)
    requires MirrorRuns.Inv(w)
    ensures GroupAt(w.live, p, n) ==> p == GroupPath(n)
  {
    assert n in w.live ==> MirrorRuns.LiveInv(n, w.live[n]);
  }

  lemma ListCollides(w: World, names: seq<string>, gone: seq<string>, failed: set<nat>)
    requires MirrorRuns.Inv(w) && Unique(w.live) && Enabled(w, List(names, gone, failed)) && CNames(w, List(names, gone, failed))
    ensures Unique(Listed(w, names, gone, failed).live) <==> !Collides(w, List(names, gone, failed))
  {
    var s := Listed(w, names, gone, failed).live;
    if Collides(w, List(names, gone, failed)) {
      var k, m :| k in MirrorRuns.FailedNames(names, failed) && m in names && m != k && Alike(k, m) && Publishes(w.live, k) &&
                  (m in MirrorRuns.FailedNames(names, failed) || (m in w.live && w.live[m].path.Some?));
      ListCollisionShares(w, names, gone, failed, k, m);
    } else {
      ListedAt(w, names, gone, failed);
      forall p, k, m | GroupAt(s, p, k) && GroupAt(s, p, m)
        ensures k == m
      {
        if k != m { ListShared(w, names, gone, failed, p, k, m); }
      }
    }
  }

  /** An event takes its path from an object that is there afterwards, exactly if it publishes a
      name that decodes like that of another exported object. */
  lemma DisplacesExactly(w: World, e: Event)
    requires MirrorRuns.Inv(w) && Unique(w.live) && Enabled(w, e) && CNames(w, e)
    ensures Displacement.Step(w, e) != MirrorState.Step(w, e) <==> Collides(w, e)
  {
    PlainShapes(w);
    SameStep(w, e);
    match e
    case Show(Live(n), reply) => ShowCollides(w, n, reply);
    case List(names, gone, failed) => ListCollides(w, names, gone, failed);
    case _ =>
  }

  // --- Volumes without their group ----------------------------------------------------------------

  ghost predicate HasGroup(live: map<string, Group>, p: Path) {
    exists h :: GroupAt(live, p, h)
  }

  /** Wherever a volume is on the bus, some group is at the path above it. */
  ghost predicate Orphanless(live: map<string, Group>) {
    forall p, m, v :: VolumeAt(live, p, m, v) ==> HasGroup(live, GroupPath(m))
  }

  lemma TakeEntryAt(live: map<string, Group>, n: string, e: LvInfo)
    requires n in live && live[n].name == n
    ensures var r := TakeEntry(live, n, e);
            && n in r && r[n].name == n && r[n].path == live[n].path
            && (forall p, m, v :: VolumeAt(r, p, m, v) ==> VolumeAt(live, p, m, v) || (m == n && live[n].path.Some?))
            && (forall p, m :: GroupAt(r, p, m) <==> GroupAt(live, p, m))
  {
    if IsVisible(e.name) {
      var g := live[n];
      var before := if e.name in g.volumes then g.volumes[e.name] else NEW_VOLUME;
      var after := UpdateVolume(before, g.path, e);
      if before.needsPublish && after.path.Some? {
        VacateAt(live, after.path.value);
        WithVolumeAt(VacateVolumes(live, after.path.value), n, e.name, after);
      } else {
        WithVolumeAt(live, n, e.name, after);
        assert forall p :: after.path == Some(p) && before.path == Some(p) ==> VolumeAt(live, p, n, e.name);
      }
    }
  }

  lemma {:induction false} TakeEntriesAt(live: map<string, Group>, n: string, entries: seq<LvInfo>)
    requires n in live && live[n].name == n
    ensures var r := TakeEntries(live, n, entries);
            && r[n].name == n && r[n].path == live[n].path
            && (forall p, m, v :: VolumeAt(r, p, m, v) ==> VolumeAt(live, p, m, v) || (m == n && live[n].path.Some?))
            && (forall p, m :: GroupAt(r, p, m) <==> GroupAt(live, p, m))
  {
    if entries != [] {
      TakeEntriesAt(live, n, entries[..|entries| - 1]);
      TakeEntryAt(TakeEntries(live, n, entries[..|entries| - 1]), n, entries[|entries| - 1]);
    }
  }

  // No volume that was not there, except below a group that is; no group path given up.
  ghost predicate KeepsParents(live: map<string, Group>, r: map<string, Group>) {
    && (forall p, m, v :: VolumeAt(r, p, m, v) ==> VolumeAt(live, p, m, v) || HasGroup(r, GroupPath(m)))
    && (forall p :: HasGroup(live, p) ==> HasGroup(r, p))
  }

  lemma ReconcileKeepsParents(live: map<string, Group>, n: string, r: VgInfo)
    requires n in live && GroupShape(n, live[n])
    ensures KeepsParents(live, Reconcile(live, n, r))
  {
    TakeEntriesAt(live, n, r.lvs);
    DropAt(TakeEntries(live, n, r.lvs), n, r);
    var d := Reconcile(live, n, r);
    forall p | HasGroup(live, p)
      ensures HasGroup(d, p)
    {
      var h :| GroupAt(live, p, h);
      assert GroupAt(d, p, h);
    }
    assert live[n].path.Some? ==> GroupAt(d, GroupPath(n), n);
  }

  lemma PublishKeepsParents(live: map<string, Group>, n: string)
    requires n in live && GroupInv(n, live[n])
    ensures KeepsParents(live, PublishGroup(live, n))
  {
    if live[n].needPublish {
      PublishAt(live, n);
      var r := PublishGroup(live, n);
      assert GroupAt(r, GroupPath(n), n);
      forall p | HasGroup(live, p)
        ensures HasGroup(r, p)
      {
        var h :| GroupAt(live, p, h);
        assert p != GroupPath(n) ==> GroupAt(r, p, h);
      }
    }
  }

  lemma SetPropsKeepsParents(live: map<string, Group>, n: string, reply: Reply)
    requires n in live
    ensures KeepsParents(live, SetProps(live, n, reply))
  {
    var r := SetProps(live, n, reply);
    assert forall q, m, v :: VolumeAt(r, q, m, v) <==> VolumeAt(live, q, m, v);
    assert forall q, m :: GroupAt(r, q, m) <==> GroupAt(live, q, m);
    forall p | HasGroup(live, p)
      ensures HasGroup(r, p)
    {
      var h :| GroupAt(live, p, h);
      assert GroupAt(r, p, h);
    }
  }

  lemma ParentsKept(live: map<string, Group>, r: map<string, Group>)
    requires Orphanless(live) && KeepsParents(live, r)
    ensures Orphanless(r)
  {
  }

  lemma ShowKeepsParents(w: World, n: string, reply: Reply)
    requires Inv(w) && n in w.live && Orphanless(w.live)
    ensures Orphanless(ShowLive(w, n, reply).live)
  {
    var live0 := SetProps(w.live, n, reply);
    SetPropsKeepsInv(w.live, n, reply);
    SetPropsKeepsParents(w.live, n, reply);
    ParentsKept(w.live, live0);
    PublishKeepsInv(live0, n);
    PublishKeepsParents(live0, n);
    var live1 := PublishGroup(live0, n);
    ParentsKept(live0, live1);
    if IsChange(w.live[n], reply) {
      LooseFromShapes(live1);
      ReconcileKeepsParents(live1, n, reply.value);
      ParentsKept(live1, Reconcile(live1, n, reply.value));
    }
  }

  // Some group in `names` whose first update fails at once is published at p.
  ghost predicate Republished(live: map<string, Group>, names: seq<string>, failed: set<nat>, p: Path) {
    exists k :: k in MirrorRuns.FailedNames(names, failed) && Publishes(live, k) && GroupPath(k) == p
  }

  lemma EnsureOneAt(live: map<string, Group>, n: string, fails: bool)
    requires Shapes(live)
    ensures var r := EnsureOne(live, n, fails);
            && (forall p, m, v :: VolumeAt(r, p, m, v) <==> VolumeAt(live, p, m, v))
            && (forall p :: HasGroup(r, p) <==> HasGroup(live, p) || (fails && Publishes(live, n) && p == GroupPath(n)))
            && (forall k :: Publishes(r, k) <==> Publishes(live, k) && !(fails && k == n))
  {
    var known := if n in live then live else live[n := NewGroup(n)];
    assert forall q, m, v :: VolumeAt(known, q, m, v) <==> VolumeAt(live, q, m, v);
    assert forall q, m :: GroupAt(known, q, m) <==> GroupAt(live, q, m);
    assert GroupInv(n, known[n]);
    var r := EnsureOne(live, n, fails);
    if fails && known[n].needPublish {
      PublishAt(known, n);
      assert GroupAt(r, GroupPath(n), n);
      assert forall q, m :: q != GroupPath(n) ==> (GroupAt(r, q, m) <==> GroupAt(live, q, m));
    } else {
      assert forall q, m :: GroupAt(r, q, m) <==> GroupAt(live, q, m);
    }
  }

  lemma {:induction false} EnsureAllAt(live: map<string, Group>, names: seq<string>, failed: set<nat>)
    requires Shapes(live) && Unique(live)
    ensures var r := EnsureAll(live, names, failed);
            && (forall p, m, v :: VolumeAt(r, p, m, v) <==> VolumeAt(live, p, m, v))
            && (forall p :: HasGroup(r, p) <==> HasGroup(live, p) || Republished(live, names, failed, p))
            && (forall k :: Publishes(r, k) <==> Publishes(live, k) && k !in MirrorRuns.FailedNames(names, failed))
  {
    if names != [] {
      var last := |names| - 1;
      EnsureAllAt(live, names[..last], failed);
      EnsureAllKeepsInv(live, names[..last], failed);
      EnsureOneAt(EnsureAll(live, names[..last], failed), names[last], last in failed);
      MirrorRuns.FailedNamesOneMore(names, failed);
    }
  }

  /** The reply takes the group at some path away, keeps a group that once was at that path and
      still has a volume below it, and publishes no other group there. */
  ghost predicate Strands(w: World, names: seq<string>, gone: seq<string>, failed: set<nat>) {
    exists p, m, v :: VolumeAt(w.live, p, m, v) && m !in gone &&
                      (forall h :: GroupAt(w.live, GroupPath(m), h) ==> h in gone) &&
                      !Republished(w.live, names, failed, GroupPath(m))
  }

  lemma ListStrands(w: World, names: seq<string>, gone: seq<string>, failed: set<nat>)
    requires Inv(w) && Orphanless(w.live) && Enabled(w, List(names, gone, failed))
    ensures Orphanless(Displacement.Step(w, List(names, gone, failed)).live) <==> !Strands(w, names, gone, failed)
  {
    RemoveAllKeepsDead(w, gone);
    var live1 := RemoveAll(w, gone).live;
    EnsureAllAt(live1, names, failed);
    var r := EnsureAll(live1, names, failed);
    assert forall p, m, v :: VolumeAt(live1, p, m, v) <==> VolumeAt(w.live, p, m, v) && m !in gone;
    assert forall p, m :: GroupAt(live1, p, m) <==> GroupAt(w.live, p, m) && m !in gone;
    forall p
      ensures HasGroup(r, p) <==> !(forall h :: GroupAt(w.live, p, h) ==> h in gone) || Republished(w.live, names, failed, p)
    {
      SameRepublished(w, live1, names, gone, failed, p);
    }
  }

  lemma SameRepublished(w: World, live1: map<string, Group>, names: seq<string>, gone: seq<string>, failed: set<nat>, p: Path)
    requires Enabled(w, List(names, gone, failed)) && live1 == w.live - set n | n in gone
    ensures Republished(live1, names, failed, p) <==> Republished(w.live, names, failed, p)
  {
    assert forall k :: k in MirrorRuns.FailedNames(names, failed) ==> k in names && k !in gone;
  }

  /** Where no volume is an orphan, an event makes one exactly if it is a list reply that
      strands a volume of a displaced group. */
  lemma OrphansExactly(w: World, e: Event)
    requires Inv(w) && Orphanless(w.live) && Enabled(w, e)
    ensures Orphanless(Displacement.Step(w, e).live) <==> !(e.List? && Strands(w, e.names, e.gone, e.failed))
  {
    match e
    case Show(Live(n), reply) => ShowKeepsParents(w, n, reply);
    case Poll(t, r) => PollKeepsParents(w, t, r);
    case List(names, gone, failed) => ListStrands(w, names, gone, failed);
    case _ =>
  }

  lemma PollKeepsParents(w: World, t: Target, r: VgInfo)
    requires Inv(w) && Orphanless(w.live) && Known(w, t)
    ensures Orphanless(Store(w, t, Polled(Find(w, t), r)).live)
  {
    if t.Live? {
      var g := w.live[t.name];
      assert GroupInv(t.name, g);
      PollKeepsPlaces(g.volumes, g.path, r.lvs);
      var s := Store(w, t, Polled(g, r)).live;
      assert forall q, m, v :: VolumeAt(s, q, m, v) <==> VolumeAt(w.live, q, m, v);
      assert forall q, m :: GroupAt(s, q, m) <==> GroupAt(w.live, q, m);
      ParentsKept(w.live, s);
    }
  }

  // --- Runs -------------------------------------------------------------------------------------

  lemma ApartStrandsNothing(w: World, names: seq<string>, gone: seq<string>, failed: set<nat>)
    requires Inv(w) && Orphanless(w.live) && NamesApart(w.live.Keys)
    ensures !Strands(w, names, gone, failed)
  {
    forall p, m, v | VolumeAt(w.live, p, m, v) && m !in gone
      ensures GroupAt(w.live, GroupPath(m), m)
    {
      var h :| GroupAt(w.live, GroupPath(m), h);
      assert GroupInv(h, w.live[h]);
      MirrorTheorems.SameGroupPath(m, h);
    }
  }

  /** In every run whose group names are apart, with late replies and whatever names volumes
      have: an exported volume is at its group's path, a slash and its escaped name, and its own
      group is exported; nothing of a disposed group is. */
  lemma {:induction false} NoOrphans(states: seq<World>, events: seq<Event>, i: nat)
    requires Displacement.IsRun(states, events) && i < |states|
    requires forall j :: 0 <= j <= i ==> NamesApart(states[j].live.Keys)
    ensures Orphanless(states[i].live)
    ensures forall p, n, v :: VolumeAt(states[i].live, p, n, v) ==>
              GroupAt(states[i].live, GroupPath(n), n) && p == GroupPath(n) + "/" + ObjectPath.Encode(v)
    ensures forall k :: 0 <= k < |states[i].dead| ==>
              states[i].dead[k].path.None? &&
              forall v :: v in states[i].dead[k].volumes ==> states[i].dead[k].volumes[v].path.None?
  {
    if i > 0 {
      NoOrphans(states, events, i - 1);
      InvAlways(states, events, i - 1);
      var w, e := states[i - 1], events[i - 1];
      if e.List? { ApartStrandsNothing(w, e.names, e.gone, e.failed); }
      OrphansExactly(w, e);
    }
    InvAlways(states, events, i);
    OwnGroup(states[i]);
  }

  lemma OwnGroup(w: World)
    requires Inv(w) && Orphanless(w.live) && NamesApart(w.live.Keys)
    ensures forall p, n, v :: VolumeAt(w.live, p, n, v) ==>
              GroupAt(w.live, GroupPath(n), n) && p == GroupPath(n) + "/" + ObjectPath.Encode(v)
  {
    forall p, n, v | VolumeAt(w.live, p, n, v)
      ensures GroupAt(w.live, GroupPath(n), n) && p == GroupPath(n) + "/" + ObjectPath.Encode(v)
    {
      assert GroupInv(n, w.live[n]) && VolumeInv(n, v, w.live[n].volumes[v]);
      MirrorRuns.ChildPath(Some(GroupPath(n)), v);
      var h :| GroupAt(w.live, GroupPath(n), h);
      assert GroupInv(h, w.live[h]);
      MirrorTheorems.SameGroupPath(n, h);
    }
  }
}
