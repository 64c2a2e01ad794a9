/** The links of blocks in the daemon's own runs, whatever names there are: exactly when an event
    makes one of them wrong. Where names are apart this is what `MirrorLinks` says. */
module DisplacedLinks {
  import opened Wrappers
  import opened LvmNames
  import opened MirrorState
  import opened MirrorLinks
  import opened Displacement
  import opened Collisions
  import MirrorRuns
  import MirrorTheorems

  // --- What makes links wrong -------------------------------------------------------------------

  // A live group that lost its path lists the block, as the late description does.
  ghost predicate AccountsFor(live: map<string, Group>, b: Block, d: PvInfo) {
    exists n :: n in live && live[n].path.None? && Match(live[n].pvs, b).Some? &&
                IsCurrent(Describe(b.pv, None, d), Match(live[n].pvs, b).value)
  }

  predicate NamesPath(b: Block, q: Path) {
    b.pv.Some? && b.pv.value.group == Some(q)
  }

  /** The event publishes a group, without a description of it, where the group of a linked block
      is exported and stays; or it is a late description of a block that no group without a path
      accounts for. */
  ghost predicate Misnames(w: World, e: Event)
    requires Enabled(w, e)
  {
    match e
    case Show(Live(n), reply) =>
      reply.Failure? && w.live[n].needPublish && exists p :: p in w.blocks && NamesPath(w.blocks[p], GroupPath(n))
    case Show(Dead(i), reply) =>
      IsChange(w.dead[i], reply) &&
      exists p :: p in w.blocks && Match(PvTable(reply.value.pvs), w.blocks[p]).Some? &&
                  !AccountsFor(w.live, w.blocks[p], Match(PvTable(reply.value.pvs), w.blocks[p]).value)
    case List(names, gone, failed) =>
      exists p, q :: p in w.blocks && NamesPath(w.blocks[p], q) && Republished(w.live, names, failed, q) &&
                     !MirrorTheorems.Lost(w.live, w.blocks[p], gone)
    case _ => false
  }

  // A volume that is new among these names goes to path q.
  ghost predicate Takes(volumes: map<string, Volume>, gp: Option<Path>, names: set<string>, q: Path) {
    exists v :: v in names && v !in volumes && Child(gp, v) == Some(q)
  }

  // The volume that the udev names of the block give is at path q.
  predicate NamesVolumeAt(live: map<string, Group>, b: Block, q: Path) {
    b.dm.Some? && VolumeAt(live, q, b.dm.value.vg, b.dm.value.lv)
  }

  // A block names a volume of another group than n, and one of these names takes its path.
  ghost predicate Taken(blocks: map<Path, Block>, live: map<string, Group>, n: string, names: set<string>)
    requires n in live
  {
    exists p, q :: p in blocks && !IsNamed(blocks[p], n) && NamesVolumeAt(live, blocks[p], q) &&
                   Takes(live[n].volumes, Published(live[n]).path, names, q)
  }

  /** A changed reply publishes a new volume where another group's is that a block names; or a
      disposed group updates such a block, see `MirrorLinks.Unlinks`. */
  ghost predicate Misplaces(w: World, e: Event)
    requires Enabled(w, e)
  {
    match e
    case Show(Live(n), reply) =>
      IsChange(w.live[n], reply) && Taken(w.blocks, w.live, n, VisibleNames(reply.value.lvs))
    case _ => Unlinks(w, e)
  }

  // --- A group is published ---------------------------------------------------------------------

  // Groups are the same but for those that lost path q, and one that lists nothing.
  ghost predicate Vacated(live: map<string, Group>, r: map<string, Group>, q: Path) {
    && (forall m :: m in live && live[m].pvs != map[] ==>
          && m in r && r[m].pvs == live[m].pvs
          && r[m].path == if live[m].path == Some(q) then None else live[m].path)
    && (forall m :: m in r && r[m].pvs != map[] ==> m in live && live[m].pvs != map[])
  }

  lemma VacatedReasons(live: map<string, Group>, r: map<string, Group>, q: Path, b: Block)
    requires Vacated(live, r, q) && Reasoned(live, b)
    ensures Reasoned(r, b) <==> !NamesPath(b, q)
  {
    if b.pv.Some? {
      var m :| LinkedTo(live, b, m);
      if NamesPath(b, q) {
        forall k
          ensures !LinkedTo(r, b, k)
        {
        }
      } else {
        assert LinkedTo(r, b, m);
      }
    }
  }

  lemma PublishVacates(live: map<string, Group>, n: string)
    requires Shapes(live) && n in live && live[n].needPublish
    ensures Vacated(live, PublishGroup(live, n), GroupPath(n))
  {
    assert GroupInv(n, live[n]);
  }

  lemma FailedStep(w: World, n: string, reply: Reply)
    requires Inv(w) && Sound(w) && n in w.live && reply.Failure? && w.live[n].needPublish
    ensures Sound(Displacement.Step(w, Show(Live(n), reply))) <==> !Misnames(w, Show(Live(n), reply))
  {
    var r := PublishGroup(w.live, n);
    PublishVacates(w.live, n);
    forall p | p in w.blocks
      ensures Reasoned(r, w.blocks[p]) <==> !NamesPath(w.blocks[p], GroupPath(n))
    {
      VacatedReasons(w.live, r, GroupPath(n), w.blocks[p]);
    }
    assert Displacement.Step(w, Show(Live(n), reply)) == w.(live := r);
  }

  // --- A changed reply --------------------------------------------------------------------------

  // Other groups keep what they list and where they are, unless they were at the path that n has now.
  ghost predicate OthersStay(live: map<string, Group>, d: map<string, Group>, n: string) {
    && n in live && n in d
    && (live[n].pvs != map[] ==> d[n].path == live[n].path)
    && forall m :: m in live && m != n ==>
         m in d && d[m].pvs == live[m].pvs && (d[m].path == live[m].path || d[n].path == live[m].path)
  }

  lemma ChangedOthers(live: map<string, Group>, n: string, reply: Reply)
    requires Shapes(live) && Unique(live) && n in live && reply.Success?
    ensures var d := Reconcile(PublishGroup(SetProps(live, n, reply), n), n, reply.value);
            OthersStay(live, d, n) && d.Keys == live.Keys
  {
    assert GroupInv(n, live[n]);
    var live0, live1 := SetProps(live, n, reply), PublishGroup(SetProps(live, n, reply), n);
    SetPropsKeepsInv(live, n, reply);
    PublishOthers(live0, n);
    PublishKeepsInv(live0, n);
    LooseFromShapes(live1);
    ReconcileOthers(live1, n, reply.value);
    StayTwice(live, live0, live1, Reconcile(live1, n, reply.value), n);
  }

  // Only the volumes of other groups change, and of group n everything but the path.
  lemma ReconcileOthers(live: map<string, Group>, n: string, r: VgInfo)
    requires LooseShapes(live) && Unique(live) && n in live
    ensures var d := Reconcile(live, n, r);
            && d.Keys == live.Keys && d[n].path == live[n].path
            && forall m :: m in live && m != n ==> d[m].pvs == live[m].pvs && d[m].path == live[m].path
  {
    TakeEntriesShape(live, n, r.lvs);
  }

  lemma PublishOthers(live: map<string, Group>, n: string)
    requires Shapes(live) && n in live
    ensures OthersStay(live, PublishGroup(live, n), n) && PublishGroup(live, n)[n].path == Published(live[n]).path
  {
    assert GroupInv(n, live[n]);
  }

  lemma StayTwice(live: map<string, Group>, live0: map<string, Group>, live1: map<string, Group>, d: map<string, Group>, n: string)
    requires n in live && live0.Keys == live.Keys && live0[n].pvs == live[n].pvs && live0[n].path == live[n].path
    requires forall m :: m in live && m != n ==> live0[m] == live[m]
    requires OthersStay(live0, live1, n) && n in d && d[n].path == live1[n].path
    requires forall m :: m in live1 && m != n ==> m in d && d[m].pvs == live1[m].pvs && d[m].path == live1[m].path
    ensures OthersStay(live, d, n)
  {
  }

  lemma ChangedReason(live: map<string, Group>, d: map<string, Group>, n: string, b: Block)
    requires OthersStay(live, d, n) && Reasoned(live, b)
    ensures Reasoned(d, Relink(b, d[n]))
  {
    var b' := Relink(b, d[n]);
    MatchIsClaim(d[n], b);
    MatchMeans(d[n].pvs, b);
    if Match(d[n].pvs, b).Some? {
      assert LinkedTo(d, b', n);
    } else if b'.pv.Some? {
      var m :| LinkedTo(live, b, m);
      assert m != n;
      assert LinkedTo(d, b', m);
    }
  }

  lemma ChangedSound(w: World, n: string, reply: Reply)
    requires Inv(w) && Sound(w) && n in w.live && IsChange(w.live[n], reply)
    ensures Sound(Displacement.Step(w, Show(Live(n), reply)))
  {
    ChangedOthers(w.live, n, reply);
    var w' := Displacement.Step(w, Show(Live(n), reply));
    forall p | p in w'.blocks
      ensures Reasoned(w'.live, w'.blocks[p])
    {
      ChangedReason(w.live, w'.live, n, w.blocks[p]);
    }
  }

  // --- A late description ------------------------------------------------------------------------

  lemma LateReason(live: map<string, Group>, g: Group, b: Block)
    requires g.path.None? && Reasoned(live, b)
    ensures Reasoned(live, Relink(b, g)) <==>
            (Match(g.pvs, b).Some? ==> AccountsFor(live, b, Match(g.pvs, b).value))
  {
    var b' := Relink(b, g);
    forall n | n in live
      ensures Match(live[n].pvs, b') == Match(live[n].pvs, b)
      ensures Claims(live[n], b') <==> Match(live[n].pvs, b).Some?
    {
      MatchIsClaim(live[n], b');
      MatchMeans(live[n].pvs, b);
    }
    if Match(g.pvs, b).None? {
      if b'.pv.Some? {
        var m :| LinkedTo(live, b, m);
        assert LinkedTo(live, b', m);
      }
    } else {
      forall n
        ensures LinkedTo(live, b', n) <==>
                n in live && live[n].path.None? && Match(live[n].pvs, b).Some? &&
                IsCurrent(Describe(b.pv, None, Match(g.pvs, b).value), Match(live[n].pvs, b).value)
      {
        LinkedToMeans(live, b', n);
      }
    }
  }

  lemma LateSound(w: World, i: nat, reply: Reply)
    requires Inv(w) && Sound(w) && Enabled(w, Show(Dead(i), reply)) && IsChange(w.dead[i], reply)
    ensures Sound(Displacement.Step(w, Show(Dead(i), reply))) <==> !Misnames(w, Show(Dead(i), reply))
  {
    LateGroup(w.dead[i], reply);
    LateWorld(w, i, reply);
    var g, w' := Updated(w.dead[i], reply), Displacement.Step(w, Show(Dead(i), reply));
    forall p | p in w.blocks
      ensures Reasoned(w.live, w'.blocks[p]) <==>
              (Match(g.pvs, w.blocks[p]).Some? ==> AccountsFor(w.live, w.blocks[p], Match(g.pvs, w.blocks[p]).value))
    {
      LateReason(w.live, g, w.blocks[p]);
    }
  }

  // --- A list reply -------------------------------------------------------------------------------

  // What the second loop makes of a group that was published before.
  function Kept(g: Group, lost: bool): Group {
    if lost then g.(path := None) else g
  }

  ghost predicate Loses(live: map<string, Group>, names: seq<string>, failed: set<nat>, m: string)
    requires m in live
  {
    live[m].path.Some? && Republished(live, names, failed, live[m].path.value)
  }

  ghost predicate Ensured(live: map<string, Group>, names: seq<string>, failed: set<nat>, r: map<string, Group>) {
    && (forall m :: m in live && !live[m].needPublish ==> m in r && r[m] == Kept(live[m], Loses(live, names, failed, m)))
    && (forall m :: m in r && (m !in live || live[m].needPublish) ==> r[m].pvs == map[] && r[m].volumes == map[])
  }

  lemma EnsureOneKeeps(live: map<string, Group>, n: string, fails: bool)
    requires Shapes(live)
    ensures var r := EnsureOne(live, n, fails);
            && (forall m :: m in live && !live[m].needPublish ==>
                  m in r && r[m] == Kept(live[m], fails && Publishes(live, n) && live[m].path == Some(GroupPath(n))))
            && (forall m :: m in r && (m !in live || live[m].needPublish) ==> r[m].pvs == map[] && r[m].volumes == map[])
  {
    var known := if n in live then live else live[n := NewGroup(n)];
    assert GroupInv(n, known[n]);
    assert forall m :: m in live && live[m].needPublish ==> GroupInv(m, live[m]);
  }

  lemma RepublishedOneMore(live: map<string, Group>, names: seq<string>, failed: set<nat>, q: Path)
    requires names != []
    ensures var last := |names| - 1;
            Republished(live, names, failed, q) <==>
            Republished(live, names[..last], failed, q) ||
            (last in failed && Publishes(live, names[last]) && GroupPath(names[last]) == q)
  {
    MirrorRuns.FailedNamesOneMore(names, failed);
  }

  lemma {:induction false} EnsureAllKeeps(live: map<string, Group>, names: seq<string>, failed: set<nat>)
    requires Shapes(live) && Unique(live)
    ensures Ensured(live, names, failed, EnsureAll(live, names, failed))
  {
    if names != [] {
      var last := |names| - 1;
      var before := EnsureAll(live, names[..last], failed);
      EnsureAllKeeps(live, names[..last], failed);
      EnsureAllKeepsInv(live, names[..last], failed);
      EnsureAllAt(live, names[..last], failed);
      EnsureOneKeeps(before, names[last], last in failed);
      forall m | m in live && !live[m].needPublish
        ensures Kept(before[m], last in failed && Publishes(before, names[last]) && before[m].path == Some(GroupPath(names[last])))
                == Kept(live[m], Loses(live, names, failed, m))
      {
        if live[m].path.Some? { RepublishedOneMore(live, names, failed, live[m].path.value); }
      }
    }
  }

  // A group that has just been published lists nothing, and the one before it has lost the path.
  lemma RepublishedIsEmpty(live: map<string, Group>, names: seq<string>, failed: set<nat>, r: map<string, Group>, q: Path)
    requires Ensured(live, names, failed, r) && Republished(live, names, failed, q)
    ensures forall k :: k in r && r[k].path == Some(q) ==> r[k].pvs == map[]
  {
  }

  lemma EnsuredReason(live: map<string, Group>, names: seq<string>, failed: set<nat>, r: map<string, Group>, b: Block)
    requires Shapes(live) && Ensured(live, names, failed, r) && Reasoned(live, b)
    ensures Reasoned(r, b) <==> !exists q :: NamesPath(b, q) && Republished(live, names, failed, q)
  {
    if exists q :: NamesPath(b, q) && Republished(live, names, failed, q) {
      var q :| NamesPath(b, q) && Republished(live, names, failed, q);
      RepublishedIsEmpty(live, names, failed, r, q);
    } else if b.pv.Some? {
      var m :| LinkedTo(live, b, m);
      assert GroupInv(m, live[m]);
      assert live[m].path.Some? ==> NamesPath(b, live[m].path.value);
      assert r[m] == live[m];
      assert LinkedTo(r, b, m);
    }
  }

  lemma ListedSound(w: World, names: seq<string>, gone: seq<string>, failed: set<nat>)
    requires Inv(w) && Sound(w) && Enabled(w, List(names, gone, failed))
    ensures Sound(Displacement.Step(w, List(names, gone, failed))) <==> !Misnames(w, List(names, gone, failed))
  {
    assert forall n :: n in w.live ==> GroupInv(n, w.live[n]);
    var w1, w' := RemoveAll(w, gone), Displacement.Step(w, List(names, gone, failed));
    RemoveAllKeepsDead(w, gone);
    RemoveAllKeepsPv(w, gone);
    EnsureAllKeeps(w1.live, names, failed);
    MirrorTheorems.RemoveAllKeys(w, gone);
    forall p | p in w.blocks
      ensures Reasoned(w'.live, w'.blocks[p]) <==>
              !exists q :: NamesPath(w.blocks[p], q) && Republished(w.live, names, failed, q) &&
                           !MirrorTheorems.Lost(w.live, w.blocks[p], gone)
    {
      EnsuredReason(w1.live, names, failed, w'.live, w1.blocks[p]);
      MirrorTheorems.RemoveAllBlocks(w, gone, p);
      forall q
        ensures Republished(w1.live, names, failed, q) <==> Republished(w.live, names, failed, q)
      {
        SameRepublished(w, w1.live, names, gone, failed, q);
      }
    }
  }

  /** Exactly when an event of the daemon makes a physical volume link name a group that does not
      list the block, or not as described. */
  lemma PvStep(w: World, e: Event)
    requires Inv(w) && Sound(w) && Enabled(w, e)
    ensures Sound(Displacement.Step(w, e)) <==> !Misnames(w, e)
  {
    match e
    case Show(Live(n), reply) =>
      if IsChange(w.live[n], reply) {
        ChangedSound(w, n, reply);
      } else {
        SameReplySound(w, n, reply);
      }
    case Show(Dead(i), reply) =>
      if IsChange(w.dead[i], reply) {
        LateSound(w, i, reply);
      } else {
        FrameAll(w, Displacement.Step(w, e));
      }
    case Poll(t, r) => PollFrame(w, t, r);
    case List(names, gone, failed) => ListedSound(w, names, gone, failed);
    case BlockAdded(p, b, order) => AddedFrame(w, p, b, order);
    case BlockRemoved(_) =>
    case LastUnref(i) => FreedPv(w, i);
  }

  lemma SameReplySound(w: World, n: string, reply: Reply)
    requires Inv(w) && Sound(w) && n in w.live && !IsChange(w.live[n], reply)
    ensures Sound(Displacement.Step(w, Show(Live(n), reply))) <==> !Misnames(w, Show(Live(n), reply))
  {
    assert GroupInv(n, w.live[n]);
    if w.live[n].needPublish {
      FailedStep(w, n, reply);
    } else {
      FrameAll(w, Displacement.Step(w, Show(Live(n), reply)));
    }
  }

  lemma PollFrame(w: World, t: Target, r: VgInfo)
    requires Inv(w) && Known(w, t)
    ensures var w' := Displacement.Step(w, Poll(t, r)); Sound(w') == Sound(w) && LvExact(w') == LvExact(w)
  {
    if t.Live? {
      var g := w.live[t.name];
      assert GroupInv(t.name, g);
      PollKeepsPlaces(g.volumes, g.path, r.lvs);
    }
    FrameAll(w, Displacement.Step(w, Poll(t, r)));
  }

  lemma AddedFrame(w: World, p: Path, b: Block, order: seq<string>)
    requires Inv(w) && Enabled(w, BlockAdded(p, b, order))
    ensures var w' := Displacement.Step(w, BlockAdded(p, b, order));
            (Sound(w) ==> Sound(w')) && (LvExact(w) ==> LvExact(w'))
  {
    assert forall n :: n in w.live ==> GroupInv(n, w.live[n]);
    RelinkFromFresh(w.live, b, order);
  }

  // --- Volume links -------------------------------------------------------------------------------

  ghost predicate VolumesReady(live: map<string, Group>, n: string)
    requires n in live
  {
    forall v :: v in live[n].volumes ==> !live[n].volumes[v].needsPublish
  }

  // What one volume of a reply, and then the reply, does to the volumes of other groups.
  lemma TakeEntryAt(live: map<string, Group>, n: string, e: LvInfo)
    requires n in live && VolumesReady(live, n)
    ensures var r := TakeEntry(live, n, e);
            && n in r && r[n].path == live[n].path && VolumesReady(r, n)
            && forall q, m, u :: m != n ==>
                 (VolumeAt(r, q, m, u) <==>
                  VolumeAt(live, q, m, u) &&
                  !(IsVisible(e.name) && e.name !in live[n].volumes && Child(live[n].path, e.name) == Some(q)))
  {
    if IsVisible(e.name) {
      var g := live[n];
      var before := if e.name in g.volumes then g.volumes[e.name] else NEW_VOLUME;
      var after := UpdateVolume(before, g.path, e);
      if before.needsPublish && after.path.Some? {
        VacateAt(live, after.path.value);
        WithVolumeAt(VacateVolumes(live, after.path.value), n, e.name, after);
      } else {
        WithVolumeAt(live, n, e.name, after);
      }
    }
  }

  lemma TakesOneMore(volumes: map<string, Volume>, gp: Option<Path>, entries: seq<LvInfo>, q: Path)
    requires entries != []
    ensures var last := |entries| - 1;
            Takes(volumes, gp, VisibleNames(entries), q) <==>
            Takes(volumes, gp, VisibleNames(entries[..last]), q) ||
            (IsVisible(entries[last].name) && entries[last].name !in volumes && Child(gp, entries[last].name) == Some(q))
  {
    MirrorRuns.VisibleNamesOneMore(entries);
  }

  lemma {:induction false} TakeEntriesAt(live: map<string, Group>, n: string, entries: seq<LvInfo>)
    requires n in live && VolumesReady(live, n) && LooseShapes(live) && Unique(live)
    ensures var r := TakeEntries(live, n, entries);
            && r[n].path == live[n].path && VolumesReady(r, n)
            && forall q, m, u :: m != n ==>
                 (VolumeAt(r, q, m, u) <==>
                  VolumeAt(live, q, m, u) && !Takes(live[n].volumes, live[n].path, VisibleNames(entries), q))
  {
    if entries != [] {
      var last := |entries| - 1;
      var before := TakeEntries(live, n, entries[..last]);
      TakeEntriesAt(live, n, entries[..last]);
      TakeEntriesShape(live, n, entries[..last]);
      TakeEntryAt(before, n, entries[last]);
      forall q
        ensures Takes(live[n].volumes, live[n].path, VisibleNames(entries), q) <==>
                Takes(live[n].volumes, live[n].path, VisibleNames(entries[..last]), q) ||
                (IsVisible(entries[last].name) && entries[last].name !in before[n].volumes &&
                 Child(live[n].path, entries[last].name) == Some(q))
      {
        TakesOneMore(live[n].volumes, live[n].path, entries, q);
      }
    }
  }

  // Volumes of other groups are the same, but for those whose path was taken.
  ghost predicate OthersVolumes(live: map<string, Group>, d: map<string, Group>, n: string, names: set<string>)
    requires n in live
  {
    && d.Keys == live.Keys
    && (forall m :: m in live && m != n ==> d[m].volumes.Keys == live[m].volumes.Keys)
    && (forall q, m, u :: m != n ==>
          (VolumeAt(d, q, m, u) <==>
           VolumeAt(live, q, m, u) && !Takes(live[n].volumes, Published(live[n]).path, names, q)))
  }

  lemma ReconcileAt(live: map<string, Group>, n: string, r: VgInfo)
    requires n in live && VolumesReady(live, n) && LooseShapes(live) && Unique(live) && !live[n].needPublish
    ensures OthersVolumes(live, Reconcile(live, n, r), n, VisibleNames(r.lvs))
  {
    TakeEntriesShape(live, n, r.lvs);
    TakeEntriesAt(live, n, r.lvs);
    DropAt(TakeEntries(live, n, r.lvs), n, r);
  }

  lemma PublishedVolumes(live: map<string, Group>, n: string)
    requires n in live && live[n].name == n
    ensures var r := PublishGroup(live, n);
            r[n].path == Published(live[n]).path && !r[n].needPublish && forall m :: m in live ==> r[m].volumes == live[m].volumes
  {
  }

  lemma ReceivedVolumes(live: map<string, Group>, n: string, reply: Reply)
    requires n in live && live[n].name == n
    ensures var r := PublishGroup(SetProps(live, n, reply), n);
            && r.Keys == live.Keys && r[n].path == Published(live[n]).path && !r[n].needPublish
            && forall m :: m in live ==> r[m].volumes == live[m].volumes
  {
    var live0 := SetProps(live, n, reply);
    assert live0.Keys == live.Keys && forall m :: m in live ==> live0[m].volumes == live[m].volumes;
    PublishedVolumes(live0, n);
  }

  lemma ChangedVolumes(live: map<string, Group>, n: string, reply: Reply)
    requires Shapes(live) && Unique(live) && n in live && reply.Success?
    ensures OthersVolumes(live, Reconcile(PublishGroup(SetProps(live, n, reply), n), n, reply.value), n, VisibleNames(reply.value.lvs))
  {
    assert GroupInv(n, live[n]);
    var live1 := PublishGroup(SetProps(live, n, reply), n);
    SetPropsKeepsInv(live, n, reply);
    PublishKeepsInv(SetProps(live, n, reply), n);
    LooseFromShapes(live1);
    ReceivedVolumes(live, n, reply);
    assert GroupInv(n, live1[n]);
    ReconcileAt(live1, n, reply.value);
    assert forall q, m, u :: VolumeAt(live1, q, m, u) <==> VolumeAt(live, q, m, u);
  }

  lemma ChangedDirect(live: map<string, Group>, d: map<string, Group>, n: string, names: set<string>, b: Block)
    requires n in live && OthersVolumes(live, d, n, names) && !IsNamed(b, n)
    ensures DirectLv(d, b) == DirectLv(live, b) <==>
            !exists q :: NamesVolumeAt(live, b, q) && Takes(live[n].volumes, Published(live[n]).path, names, q)
  {
    if DirectLv(live, b).Some? {
      var m, u := b.dm.value.vg, b.dm.value.lv;
      var before, after := live[m].volumes[u].path, d[m].volumes[u].path;
      assert forall q :: VolumeAt(live, q, m, u) <==> before == Some(q);
      assert forall q :: VolumeAt(d, q, m, u) <==> after == Some(q);
      assert before.Some? ==> NamesVolumeAt(live, b, before.value);
      assert after.Some? ==> VolumeAt(d, after.value, m, u);
    }
  }

  lemma ChangedLvAt(live: map<string, Group>, d: map<string, Group>, n: string, names: set<string>, b: Block)
    requires n in live && OthersVolumes(live, d, n, names) && d[n].name == n && b.lv == DirectLv(live, b)
    ensures Relink(b, d[n]).lv == DirectLv(d, b) <==>
            !(!IsNamed(b, n) &&
              exists q :: NamesVolumeAt(live, b, q) && Takes(live[n].volumes, Published(live[n]).path, names, q))
  {
    if !IsNamed(b, n) { ChangedDirect(live, d, n, names, b); }
  }

  lemma ChangedLvAll(blocks: map<Path, Block>, live: map<string, Group>, d: map<string, Group>, n: string, names: set<string>)
    requires n in live && OthersVolumes(live, d, n, names) && d[n].name == n
    requires forall p :: p in blocks ==> blocks[p].lv == DirectLv(live, blocks[p])
    ensures var after := RelinkAll(blocks, d[n]);
            (forall p :: p in after ==> after[p].lv == DirectLv(d, after[p])) <==> !Taken(blocks, live, n, names)
  {
    var after := RelinkAll(blocks, d[n]);
    forall p | p in blocks
      ensures after[p].lv == DirectLv(d, after[p]) <==>
              !(!IsNamed(blocks[p], n) &&
                exists q :: NamesVolumeAt(live, blocks[p], q) && Takes(live[n].volumes, Published(live[n]).path, names, q))
    {
      ChangedLvAt(live, d, n, names, blocks[p]);
    }
  }

  lemma ChangedLv(w: World, n: string, reply: Reply)
    requires Inv(w) && LvExact(w) && n in w.live && IsChange(w.live[n], reply)
    ensures LvExact(Displacement.Step(w, Show(Live(n), reply))) <==> !Misplaces(w, Show(Live(n), reply))
  {
    var d := Reconcile(PublishGroup(SetProps(w.live, n, reply), n), n, reply.value);
    ChangedVolumes(w.live, n, reply);
    InvStep(w, Show(Live(n), reply));
    assert GroupInv(n, d[n]);
    ChangedLvAll(w.blocks, w.live, d, n, VisibleNames(reply.value.lvs));
  }

  lemma SameReplyLv(w: World, n: string, reply: Reply)
    requires Inv(w) && LvExact(w) && n in w.live && !IsChange(w.live[n], reply)
    ensures LvExact(Displacement.Step(w, Show(Live(n), reply)))
  {
    assert GroupInv(n, w.live[n]);
    ReceivedVolumes(w.live, n, reply);
    var w' := Displacement.Step(w, Show(Live(n), reply));
    assert forall p :: p in w.blocks ==> DirectLv(w'.live, w.blocks[p]) == DirectLv(w.live, w.blocks[p]);
  }

  lemma EnsuredDirect(live: map<string, Group>, names: seq<string>, failed: set<nat>, r: map<string, Group>, b: Block)
    requires Shapes(live) && Ensured(live, names, failed, r)
    ensures DirectLv(r, b) == DirectLv(live, b)
  {
    if b.dm.Some? {
      var m := b.dm.value.vg;
      assert m in live ==> GroupInv(m, live[m]);
      assert m in live && !live[m].needPublish ==> m in r && r[m].volumes == live[m].volumes;
    }
  }

  lemma ListedLv(w: World, names: seq<string>, gone: seq<string>, failed: set<nat>)
    requires Inv(w) && LvExact(w) && Enabled(w, List(names, gone, failed))
    ensures LvExact(Displacement.Step(w, List(names, gone, failed)))
  {
    assert forall n :: n in w.live ==> GroupInv(n, w.live[n]);
    var w1, w' := RemoveAll(w, gone), Displacement.Step(w, List(names, gone, failed));
    RemoveAllKeepsDead(w, gone);
    RemoveAllKeepsLv(w, gone);
    EnsureAllKeeps(w1.live, names, failed);
    forall p | p in w1.blocks
      ensures w'.blocks[p].lv == DirectLv(w'.live, w'.blocks[p])
    {
      EnsuredDirect(w1.live, names, failed, w'.live, w1.blocks[p]);
    }
  }

  /** Exactly when an event of the daemon makes a volume link differ from what the tables say. */
  lemma LvStep(w: World, e: Event)
    requires Inv(w) && LvExact(w) && Enabled(w, e)
    ensures LvExact(Displacement.Step(w, e)) <==> !Misplaces(w, e)
  {
    match e
    case Show(Live(n), reply) =>
      if IsChange(w.live[n], reply) {
        ChangedLv(w, n, reply);
      } else {
        SameReplyLv(w, n, reply);
      }
    case Show(Dead(i), reply) =>
      if IsChange(w.dead[i], reply) {
        LateShownLv(w, i, reply);
      } else {
        FrameAll(w, Displacement.Step(w, e));
      }
    case Poll(t, r) => PollFrame(w, t, r);
    case List(names, gone, failed) => ListedLv(w, names, gone, failed);
    case BlockAdded(p, b, order) => AddedFrame(w, p, b, order);
    case BlockRemoved(_) =>
    case LastUnref(i) => FreedLv(w, i);
  }

  // --- Over runs ----------------------------------------------------------------------------------

  lemma PvHere(states: seq<World>, events: seq<Event>, i: nat)
    requires Displacement.IsRun(states, events) && i < |events|
    ensures Sound(states[i]) ==> (Sound(states[i + 1]) <==> !Misnames(states[i], events[i]))
  {
    InvAlways(states, events, i);
    if Sound(states[i]) { PvStep(states[i], events[i]); }
  }

  lemma LvHere(states: seq<World>, events: seq<Event>, i: nat)
    requires Displacement.IsRun(states, events) && i < |events|
    ensures LvExact(states[i]) ==> (LvExact(states[i + 1]) <==> !Misplaces(states[i], events[i]))
  {
    InvAlways(states, events, i);
    if LvExact(states[i]) { LvStep(states[i], events[i]); }
  }

  /** In every run of the daemon, up to any moment: each block's physical volume interface has
      always named a group only if that group listed the block, exactly if no event misnames. */
  lemma PvRuns(states: seq<World>, events: seq<Event>, k: nat)
    requires Displacement.IsRun(states, events) && k <= |events|
    ensures (forall i :: 0 <= i <= k ==> Sound(states[i])) <==> (forall i :: 0 <= i < k ==> !Misnames(states[i], events[i]))
  {
    forall i | 0 <= i < k
      ensures Sound(states[i]) ==> (Sound(states[i + 1]) <==> !Misnames(states[i], events[i]))
    {
      PvHere(states, events, i);
    }
    assert Sound(states[0]);
    var holds := seq(k + 1, i requires 0 <= i <= k => Sound(states[i]));
    var breaks := seq(k, i requires 0 <= i < k => Misnames(states[i], events[i]));
    UntilFirst(holds, breaks);
    assert forall i :: 0 <= i <= k ==> holds[i] == Sound(states[i]);
    assert forall i :: 0 <= i < k ==> breaks[i] == Misnames(states[i], events[i]);
  }

  /** And each volume link has always been exactly the path of the volume that the block's udev
      names give, exactly if no event misplaces. */
  lemma LvRuns(states: seq<World>, events: seq<Event>, k: nat)
    requires Displacement.IsRun(states, events) && k <= |events|
    ensures (forall i :: 0 <= i <= k ==> LvExact(states[i])) <==> (forall i :: 0 <= i < k ==> !Misplaces(states[i], events[i]))
  {
    forall i | 0 <= i < k
      ensures LvExact(states[i]) ==> (LvExact(states[i + 1]) <==> !Misplaces(states[i], events[i]))
    {
      LvHere(states, events, i);
    }
    assert LvExact(states[0]);
    var holds := seq(k + 1, i requires 0 <= i <= k => LvExact(states[i]));
    var breaks := seq(k, i requires 0 <= i < k => Misplaces(states[i], events[i]));
    UntilFirst(holds, breaks);
    assert forall i :: 0 <= i <= k ==> holds[i] == LvExact(states[i]);
    assert forall i :: 0 <= i < k ==> breaks[i] == Misplaces(states[i], events[i]);
  }

  /** Where names are apart, nothing misnames and no block is ever listed by two groups, the
      physical volume links are at all times the relation of tables and blocks. */
  lemma ExactRuns(states: seq<World>, events: seq<Event>, k: nat)
    requires Displacement.IsRun(states, events) && AlwaysApart(states) && k <= |events|
    requires forall i :: 0 <= i < k ==> !Misnames(states[i], events[i])
    requires forall i :: 0 <= i <= k ==> MirrorTheorems.Disjoint(states[i])
    ensures MirrorTheorems.ExactLinks(states[k])
  {
    ApartRuns(states, events);
    PvRuns(states, events, k);
    SoundRuns(states, events, k);
    MirrorTheorems.ExactRuns(states, events, k);
  }
}
