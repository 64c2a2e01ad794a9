/** The runs of the steps of `MirrorState`, and the shape that groups have in all of them: their
    tables are those of the last reply, and live groups are on their own path.
    `Collisions.ApartRuns` says which runs of the daemon these are. */
module MirrorRuns {
  import opened Wrappers
  import opened LvmNames
  import opened MirrorState
  import ObjectPath

  /** A run visits one state more than it has events. */
  ghost predicate IsRun(states: seq<World>, events: seq<Event>) {
    && |states| == |events| + 1
    && states[0] == EMPTY
    && forall i :: 0 <= i < |events| ==>
         Enabled(states[i], events[i]) && states[i + 1] == Step(states[i], events[i])
  }

  // --- The shape of groups ----------------------------------------------------------------

  ghost predicate Settled(volumes: map<string, Volume>, groupPath: Option<Path>) {
    forall n :: n in volumes ==> !volumes[n].needsPublish && volumes[n].path == Child(groupPath, n)
  }

  // The tables are those of the last reply that was taken in.
  ghost predicate Consistent(g: Group) {
    && Settled(g.volumes, g.path)
    && match g.info
       case None => g.volumes == map[] && g.pvs == map[]
       case Some(r) =>
         g.volumes.Keys == VisibleNames(r.lvs) && g.pvs == PvTable(r.pvs) && g.needsPolling == NeedsPolling(r.lvs)
  }

  ghost predicate LiveInv(name: string, g: Group) {
    && g.name == name
    && Consistent(g)
    && g.path == (if g.needPublish then None else Some(GroupPath(name)))
    && (g.needPublish ==> g.info.None?)
    && !g.ended
  }

  ghost predicate DeadInv(g: Group) {
    Consistent(g) && g.path.None? && !g.needPublish
  }

  ghost predicate Inv(w: World) {
    && (forall n :: n in w.live ==> LiveInv(n, w.live[n]))
    && (forall i :: 0 <= i < |w.dead| ==> DeadInv(w.dead[i]))
  }

  lemma VisibleNamesOneMore(entries: seq<LvInfo>)
    requires entries != []
    ensures var last := |entries| - 1;
            VisibleNames(entries) == VisibleNames(entries[..last]) +
              (if IsVisible(entries[last].name) then {entries[last].name} else {})
  {
    var last := |entries| - 1;
    var before := entries[..last];
    assert forall i :: 0 <= i < last ==> before[i] == entries[i];
    forall n | n in VisibleNames(entries)
      ensures n in VisibleNames(before) || (n == entries[last].name && IsVisible(n))
    {
      var i :| 0 <= i < |entries| && IsVisible(entries[i].name) && entries[i].name == n;
      if i < last { assert before[i].name == n; }
    }
    forall n | n in VisibleNames(before)
      ensures n in VisibleNames(entries)
    {
      var i :| 0 <= i < |before| && IsVisible(before[i].name) && before[i].name == n;
      assert entries[i].name == n;
    }
  }

  lemma {:induction false} AddEntriesFacts(volumes: map<string, Volume>, gp: Option<Path>, entries: seq<LvInfo>)
    requires Settled(volumes, gp)
    ensures var all := AddEntries(volumes, gp, entries);
            Settled(all, gp) && all.Keys == volumes.Keys + VisibleNames(entries)
  {
    if entries != [] {
      AddEntriesFacts(volumes, gp, entries[..|entries| - 1]);
      VisibleNamesOneMore(entries);
    }
  }

  lemma {:induction false} PollEntriesFacts(volumes: map<string, Volume>, gp: Option<Path>, entries: seq<LvInfo>)
    requires Settled(volumes, gp)
    ensures var all := PollEntries(volumes, gp, entries);
            && all.Keys == volumes.Keys && Settled(all, gp)
  {
    if entries != [] {
      PollEntriesFacts(volumes, gp, entries[..|entries| - 1]);
    }
  }

  /** Reconciliation: a changed reply leaves exactly the visible names it lists. A name that
      was there keeps its place on the bus, a new one goes below the group. */
  lemma FullPassVolumes(g: Group, r: VgInfo)
    requires Settled(g.volumes, g.path)
    ensures var v := FullPass(g, r).volumes;
            && v.Keys == VisibleNames(r.lvs)
            && Settled(v, g.path)
            && (forall n :: n in v && n in g.volumes ==> v[n].path == g.volumes[n].path)
            && (forall n :: n in v && n !in g.volumes ==> v[n].path == Child(g.path, n))
  {
    AddEntriesFacts(g.volumes, g.path, r.lvs);
  }

  // Entry i is the last of the list for its device.
  predicate IsLastFor(pvs: seq<PvInfo>, i: nat, device: string) {
    i < |pvs| && pvs[i].device == Some(device) && forall k :: i < k < |pvs| ==> pvs[k].device != Some(device)
  }

  /** The table of physical volumes: a device is in it exactly if an entry names it, with the
      description of the last such entry. */
  lemma {:induction false} PvTableMeans(pvs: seq<PvInfo>, device: string)
    ensures device in PvTable(pvs) <==> exists i: nat :: IsLastFor(pvs, i, device)
    ensures device in PvTable(pvs) ==> forall i: nat :: IsLastFor(pvs, i, device) ==> PvTable(pvs)[device] == pvs[i]
  {
    if pvs != [] {
      var last := |pvs| - 1;
      PvTableMeans(pvs[..last], device);
      if pvs[last].device == Some(device) {
        assert IsLastFor(pvs, last, device);
      } else {
        assert forall i: nat :: IsLastFor(pvs, i, device) <==> IsLastFor(pvs[..last], i, device);
      }
    }
  }

  lemma UpdatedKeepsShape(g: Group, reply: Reply)
    ensures LiveInv(g.name, g) ==> LiveInv(g.name, Updated(g, reply))
    ensures DeadInv(g) ==> DeadInv(Updated(g, reply))
  {
    if (LiveInv(g.name, g) || DeadInv(g)) && reply.Success? {
      ReceivedIsSettled(g, reply.value);
      FullPassVolumes(Received(g, reply.value), reply.value);
    }
  }

  // Publishing moves no volume: a group that is not published has none.
  lemma ReceivedIsSettled(g: Group, r: VgInfo)
    requires LiveInv(g.name, g) || DeadInv(g)
    ensures Settled(g.volumes, Received(g, r).path)
  {
  }

  lemma PolledKeepsShape(g: Group, r: VgInfo)
    ensures LiveInv(g.name, g) ==> LiveInv(g.name, Polled(g, r))
    ensures DeadInv(g) ==> DeadInv(Polled(g, r))
  {
    if LiveInv(g.name, g) || DeadInv(g) {
      PollEntriesFacts(g.volumes, g.path, r.lvs);
    }
  }

  lemma RemoveKeepsInv(w: World, n: string)
    requires Inv(w) && n in w.live
    ensures Inv(Remove(w, n))
  {
  }

  lemma {:induction false} RemoveAllKeepsInv(w: World, gone: seq<string>)
    requires Inv(w) && NoRepeats(gone) && forall n :: n in gone ==> n in w.live
    ensures Inv(RemoveAll(w, gone))
  {
    if gone != [] {
      var last := |gone| - 1;
      assert gone[last] in gone && forall n :: n in gone[..last] ==> n in gone;
      RemoveAllKeepsInv(w, gone[..last]);
      assert gone[last] !in gone[..last];
      RemoveKeepsInv(RemoveAll(w, gone[..last]), gone[last]);
    }
  }

  // --- The list reply adds names ------------------------------------------------------------

  function FailedNames(names: seq<string>, failed: set<nat>): set<string> {
    set i | 0 <= i < |names| && i in failed :: names[i]
  }

  function Listing(live: map<string, Group>, n: string, failed: bool): Group {
    var g := if n in live then live[n] else NewGroup(n);
    if failed then Published(g) else g
  }

  lemma FailedNamesOneMore(names: seq<string>, failed: set<nat>)
    requires names != []
    ensures var last := |names| - 1;
            FailedNames(names, failed) ==
              FailedNames(names[..last], failed) + (if last in failed then {names[last]} else {})
  {
    var last := |names| - 1;
    var before := names[..last];
    assert forall i :: 0 <= i < last ==> before[i] == names[i];
    forall n | n in FailedNames(names, failed)
      ensures n in FailedNames(before, failed) || (n == names[last] && last in failed)
    {
      var i :| 0 <= i < |names| && i in failed && names[i] == n;
      if i < last { assert before[i] == n; }
    }
    forall n | n in FailedNames(before, failed)
      ensures n in FailedNames(names, failed)
    {
      var i :| 0 <= i < |before| && i in failed && before[i] == n;
      assert names[i] == n;
    }
  }

  lemma {:induction false} AddGroupsFacts(live: map<string, Group>, names: seq<string>, failed: set<nat>)
    ensures var all := AddGroups(live, names, failed);
            && all.Keys == live.Keys + (set n | n in names)
            && forall n :: n in all ==> all[n] == Listing(live, n, n in FailedNames(names, failed))
  {
    if names != [] {
      var last := |names| - 1;
      var before := names[..last];
      assert names == before + [names[last]];
      assert (set n | n in names) == (set n | n in before) + {names[last]};
      AddGroupsFacts(live, before, failed);
      FailedNamesOneMore(names, failed);
      var all := AddGroups(live, names, failed);
      var part := AddGroups(live, before, failed);
      forall n | n in all
        ensures all[n] == Listing(live, n, n in FailedNames(names, failed))
      {
        if n == names[last] {
          if n !in part {
            assert n !in FailedNames(before, failed) by {
              assert n !in before;
            }
          }
        } else {
          assert all[n] == part[n];
        }
      }
    }
  }

  lemma ListedLive(w: World, names: seq<string>, gone: seq<string>, failed: set<nat>)
    requires Enabled(w, List(names, gone, failed))
    ensures var live := Listed(w, names, gone, failed).live;
            && live.Keys == (set n | n in names)
            && forall n :: n in live ==> live[n] == Listing(w.live, n, n in FailedNames(names, failed))
  {
    var w1 := RemoveAll(w, gone);
    AddGroupsFacts(w1.live, names, failed);
    assert forall n :: n in w1.live <==> n in w.live && n in names;
  }

  lemma ListedKeepsInv(w: World, names: seq<string>, gone: seq<string>, failed: set<nat>)
    requires Inv(w) && Enabled(w, List(names, gone, failed))
    ensures Inv(Listed(w, names, gone, failed))
  {
    RemoveAllKeepsInv(w, gone);
    ListedLive(w, names, gone, failed);
    var w' := Listed(w, names, gone, failed);
    forall n | n in w'.live
      ensures LiveInv(n, w'.live[n])
    {
      ListingShape(w.live, n, n in FailedNames(names, failed));
    }
  }

  lemma ListingShape(live: map<string, Group>, n: string, failed: bool)
    requires n in live ==> LiveInv(n, live[n])
    ensures LiveInv(n, Listing(live, n, failed))
  {
  }

  lemma StoreKeepsInv(w: World, t: Target, g: Group)
    requires Inv(w) && Known(w, t)
    requires t.Live? ==> LiveInv(t.name, g)
    requires t.Dead? ==> DeadInv(g)
    ensures Inv(Store(w, t, g))
  {
  }

  lemma InvStep(w: World, e: Event)
    requires Inv(w) && Enabled(w, e)
    ensures Inv(Step(w, e))
  {
    match e
    case Show(t, reply) =>
      UpdatedKeepsShape(Find(w, t), reply);
      StoreKeepsInv(w, t, Updated(Find(w, t), reply));
    case Poll(t, r) =>
      PolledKeepsShape(Find(w, t), r);
      StoreKeepsInv(w, t, Polled(Find(w, t), r));
    case List(names, gone, failed) =>
      ListedKeepsInv(w, names, gone, failed);
    case BlockAdded(_, _, _) =>
    case BlockRemoved(_) =>
    case LastUnref(_) =>
  }

  lemma {:induction false} InvAlways(states: seq<World>, events: seq<Event>, i: nat)
    requires IsRun(states, events) && i < |states|
    ensures Inv(states[i])
  {
    if i > 0 {
      InvAlways(states, events, i - 1);
      InvStep(states[i - 1], events[i - 1]);
    }
  }

  lemma ChildPath(base: Option<Path>, name: string)
    ensures var c := Child(base, name);
            c.Some? ==> base.Some? && c.value == base.value + "/" + ObjectPath.Encode(name)
  {
    if Child(base, name).Some? {
      assert ObjectPath.Elements([name]) == "/" + ObjectPath.Encode(name) + ObjectPath.Elements([name][1..]);
    }
  }
}
