/** What the mirror publishes and unpublishes, call by call, in the order of the source, on the
    registry of `Registry`: there a call may take a path away from another object. The worlds of
    `Displacement` are seen between callbacks; here also what happens within one. */
module MirrorBus {
  import opened Wrappers
  import opened LvmNames
  import opened MirrorState
  import opened Displacement
  import opened Registry
  import Collisions
  import MirrorRuns
  import MirrorTheorems

  const GROUP := "com.redhat.lvm2.VolumeGroup"
  const VOLUME := "com.redhat.lvm2.LogicalVolume"

  function GroupThing(n: string): Thing {
    Thing(GROUP, [n])
  }

  function VolumeThing(n: string, v: string): Thing {
    Thing(VOLUME, [n, v])
  }

  function DoAll(bus: Table, ops: seq<Op>): Table {
    if ops == [] then bus else Apply(DoAll(bus, ops[..|ops| - 1]), ops[|ops| - 1])
  }

  // --- The calls of one callback ------------------------------------------------------------

  function PublishOps(live: map<string, Group>, n: string): seq<Op>
    requires n in live
  {
    if live[n].needPublish then [Publish(GroupPath(live[n].name), GroupThing(n))] else []
  }

  // A volume without a place to go to is not published.
  function EntryOps(live: map<string, Group>, n: string, e: LvInfo): seq<Op>
    requires n in live
  {
    var g := live[n];
    var isNew := if e.name in g.volumes then g.volumes[e.name].needsPublish else true;
    var p := Child(g.path, e.name);
    if IsVisible(e.name) && isNew && p.Some? then [Publish(p.value, VolumeThing(n, e.name))] else []
  }

  function AddOps(live: map<string, Group>, n: string, entries: seq<LvInfo>): seq<Op>
    requires n in live
  {
    if entries == [] then []
    else
      var last := |entries| - 1;
      AddOps(live, n, entries[..last]) + EntryOps(TakeEntries(live, n, entries[..last]), n, entries[last])
  }

  function DropOneOps(g: Group, n: string, v: string): seq<Op> {
    if v in g.volumes && g.volumes[v].path.Some? then [Unpublish(g.volumes[v].path.value, VolumeThing(n, v))] else []
  }

  function DropOps(g: Group, n: string, order: seq<string>): seq<Op> {
    if order == [] then [] else DropOps(g, n, order[..|order| - 1]) + DropOneOps(g, n, order[|order| - 1])
  }

  function Vanished(g: Group, r: VgInfo): set<string> {
    g.volumes.Keys - VisibleNames(r.lvs)
  }

  /** In which order each group's table is walked in a callback. */
  type Walk = (string, set<string>) -> seq<string>

  ghost predicate Walks(walk: Walk) {
    forall n, names :: Enumerates(walk(n, names), names)
  }

  function ReconcileOps(live: map<string, Group>, n: string, r: VgInfo, walk: Walk): seq<Op>
    requires n in live
  {
    var all := TakeEntries(live, n, r.lvs);
    AddOps(live, n, r.lvs) + DropOps(all[n], n, walk(n, Vanished(all[n], r)))
  }

  function ShowOps(live: map<string, Group>, n: string, reply: Reply, walk: Walk): seq<Op>
    requires n in live
  {
    var named := SetProps(live, n, reply);
    PublishOps(named, n) + if IsChange(live[n], reply) then ReconcileOps(PublishGroup(named, n), n, reply.value, walk) else []
  }

  function DisposeOps(g: Group, n: string, walk: Walk): seq<Op> {
    DropOps(g, n, walk(n, g.volumes.Keys)) + if g.path.Some? then [Unpublish(g.path.value, GroupThing(n))] else []
  }

  function RemoveOps(live: map<string, Group>, gone: seq<string>, walk: Walk): seq<Op>
    requires forall n :: n in gone ==> n in live
  {
    if gone == [] then []
    else
      var last := |gone| - 1;
      assert gone[last] in gone && forall n :: n in gone[..last] ==> n in gone;
      RemoveOps(live, gone[..last], walk) + DisposeOps(live[gone[last]], gone[last], walk)
  }

  function EnsureOneOps(live: map<string, Group>, n: string, fails: bool): seq<Op> {
    if fails then PublishOps(if n in live then live else live[n := NewGroup(n)], n) else []
  }

  function EnsureOps(live: map<string, Group>, names: seq<string>, failed: set<nat>): seq<Op> {
    if names == [] then []
    else
      var last := |names| - 1;
      EnsureOps(live, names[..last], failed) + EnsureOneOps(EnsureAll(live, names[..last], failed), names[last], last in failed)
  }

  function Ops(w: World, e: Event, walk: Walk): seq<Op>
    requires Enabled(w, e)
  {
    match e
    case Show(Live(n), reply) => ShowOps(w.live, n, reply, walk)
    case Show(Dead(i), reply) =>
      // a disposed group has no path to put anything under, and its volumes have none either
      DeadOps(w.dead[i], reply, walk)
    case List(names, gone, failed) =>
      RemoveOps(w.live, gone, walk) + EnsureOps(RemoveAll(w, gone).live, names, failed)
    case Poll(_, _) => []
    case BlockAdded(_, _, _) => []
    case BlockRemoved(_) => []
    case LastUnref(i) => DisposeOps(w.dead[i], w.dead[i].name, walk)
  }

  // The same code on a disposed group, which is in no table and shares nothing with the live ones.
  function DeadOps(g: Group, reply: Reply, walk: Walk): seq<Op> {
    ShowOps(map[g.name := g], g.name, reply, walk)
  }

  // --- Calls and what the bus shows -----------------------------------------------------------

  // A call has an effect: what is published was not there, what is unpublished was.
  predicate Takes(bus: Table, op: Op) {
    match op
    case Publish(p, thing) => (p, thing) !in bus
    case Unpublish(p, thing) => (p, thing) in bus
    case UnpublishAll(_) => false
  }

  predicate HasGroupThing(bus: Table, p: Path) {
    exists e :: e in bus && e.0 == p && e.1.iface == GROUP
  }

  /** Some group is at the path above each volume. */
  ghost predicate NoOrphan(bus: Table) {
    forall p, n, v :: (p, VolumeThing(n, v)) in bus ==> HasGroupThing(bus, GroupPath(n))
  }

  /** Every call has an effect, and if the bus is to be tidy, no call leaves an orphan. */
  ghost predicate Good(bus: Table, ops: seq<Op>, tidy: bool) {
    ops != [] ==>
      var last := |ops| - 1;
      && Good(bus, ops[..last], tidy)
      && Takes(DoAll(bus, ops[..last]), ops[last])
      && (tidy ==> NoOrphan(DoAll(bus, ops)))
  }

  lemma {:induction false} GoodMeans(bus: Table, ops: seq<Op>, tidy: bool, k: nat)
    requires Good(bus, ops, tidy) && k < |ops|
    ensures Takes(DoAll(bus, ops[..k]), ops[k]) && (tidy ==> NoOrphan(DoAll(bus, ops[..k + 1])))
  {
    var last := |ops| - 1;
    if k < last {
      GoodMeans(bus, ops[..last], tidy, k);
      assert ops[..last][..k] == ops[..k] && ops[..last][..k + 1] == ops[..k + 1];
    } else {
      assert ops[..k + 1] == ops;
    }
  }

  lemma {:induction false} GoodAppend(bus: Table, a: seq<Op>, b: seq<Op>, tidy: bool)
    requires Good(bus, a, tidy) && Good(DoAll(bus, a), b, tidy)
    ensures DoAll(bus, a + b) == DoAll(DoAll(bus, a), b) && Good(bus, a + b, tidy)
  {
    if b == [] {
      assert a + b == a;
    } else {
      var last := |b| - 1;
      GoodAppend(bus, a, b[..last], tidy);
      assert (a + b)[..|a + b| - 1] == a + b[..last] && (a + b)[|a + b| - 1] == b[last];
    }
  }

  // The object of that path in the tables of the live groups.
  predicate Holds(live: map<string, Group>, p: Path, thing: Thing) {
    || (|thing.id| == 1 && thing == GroupThing(thing.id[0]) && GroupAt(live, p, thing.id[0]))
    || (|thing.id| == 2 && thing == VolumeThing(thing.id[0], thing.id[1]) && VolumeAt(live, p, thing.id[0], thing.id[1]))
  }

  /** The bus has the live groups and volumes at the paths they have, and nothing else. */
  ghost predicate ShowsAll(bus: Table, live: map<string, Group>) {
    forall p, thing :: (p, thing) in bus <==> Holds(live, p, thing)
  }

  lemma HoldsMeans(live: map<string, Group>, p: Path)
    ensures forall n :: Holds(live, p, GroupThing(n)) <==> GroupAt(live, p, n)
    ensures forall n, v :: Holds(live, p, VolumeThing(n, v)) <==> VolumeAt(live, p, n, v)
  {
    forall n
      ensures Holds(live, p, GroupThing(n)) <==> GroupAt(live, p, n)
    {
      assert GroupThing(n).id[0] == n;
    }
    forall n, v
      ensures Holds(live, p, VolumeThing(n, v)) <==> VolumeAt(live, p, n, v)
    {
      assert VolumeThing(n, v).id[0] == n && VolumeThing(n, v).id[1] == v;
    }
  }

  lemma TidyMeans(bus: Table, live: map<string, Group>)
    requires ShowsAll(bus, live)
    ensures NoOrphan(bus) <==> Collisions.Orphanless(live)
  {
    forall p
      ensures HasGroupThing(bus, p) <==> Collisions.HasGroup(live, p)
    {
      HoldsMeans(live, p);
      if Collisions.HasGroup(live, p) {
        var h :| GroupAt(live, p, h);
        assert (p, GroupThing(h)) in bus;
      }
    }
    forall p, n, v
      ensures (p, VolumeThing(n, v)) in bus <==> VolumeAt(live, p, n, v)
    {
      HoldsMeans(live, p);
    }
  }

  ghost predicate Leads(bus: Table, ops: seq<Op>, live: map<string, Group>, tidy: bool) {
    Good(bus, ops, tidy) && ShowsAll(DoAll(bus, ops), live)
  }

  lemma LeadsOn(bus: Table, a: seq<Op>, b: seq<Op>, live: map<string, Group>, live': map<string, Group>, tidy: bool)
    requires Leads(bus, a, live, tidy) && Leads(DoAll(bus, a), b, live', tidy)
    ensures Leads(bus, a + b, live', tidy)
  {
    GoodAppend(bus, a, b, tidy);
  }

  lemma NoCall(bus: Table, live: map<string, Group>, live': map<string, Group>, tidy: bool)
    requires ShowsAll(bus, live)
    requires forall p, n :: GroupAt(live, p, n) <==> GroupAt(live', p, n)
    requires forall p, n, v :: VolumeAt(live, p, n, v) <==> VolumeAt(live', p, n, v)
    ensures Leads(bus, [], live', tidy)
  {
  }

  lemma OneCall(bus: Table, op: Op, live: map<string, Group>, tidy: bool)
    requires Takes(bus, op) && ShowsAll(Apply(bus, op), live) && (tidy ==> Collisions.Orphanless(live))
    ensures Leads(bus, [op], live, tidy)
  {
    assert [op][..0] == [];
    assert DoAll(bus, [op]) == Apply(bus, op);
    TidyMeans(Apply(bus, op), live);
  }

  // --- One call ---------------------------------------------------------------------------------

  lemma PublishVolume(bus: Table, live: map<string, Group>, n: string, v: string, vol: Volume, p: Path)
    requires ShowsAll(bus, live) && n in live && vol.path == Some(p)
    requires v in live[n].volumes ==> live[n].volumes[v].path.None?
    ensures Takes(bus, Publish(p, VolumeThing(n, v)))
    ensures ShowsAll(Apply(bus, Publish(p, VolumeThing(n, v))), WithVolume(VacateVolumes(live, p), n, v, vol))
  {
    VacateAt(live, p);
    WithVolumeAt(VacateVolumes(live, p), n, v, vol);
    HoldsMeans(live, p);
    var bus', live' := Apply(bus, Publish(p, VolumeThing(n, v))), WithVolume(VacateVolumes(live, p), n, v, vol);
    forall q, thing
      ensures (q, thing) in bus' <==> Holds(live', q, thing)
    {
      PublishedVolumeAt(bus, live, n, v, vol, p, q, thing);
    }
  }

  lemma PublishedVolumeAt(bus: Table, live: map<string, Group>, n: string, v: string, vol: Volume, p: Path, q: Path, thing: Thing)
    requires ShowsAll(bus, live) && n in live && vol.path == Some(p)
    requires v in live[n].volumes ==> live[n].volumes[v].path.None?
    ensures (q, thing) in Apply(bus, Publish(p, VolumeThing(n, v))) <==>
            Holds(WithVolume(VacateVolumes(live, p), n, v, vol), q, thing)
  {
    VacateAt(live, p);
    WithVolumeAt(VacateVolumes(live, p), n, v, vol);
    if |thing.id| == 2 && thing == VolumeThing(thing.id[0], thing.id[1]) {
      assert thing == VolumeThing(n, v) <==> thing.id[0] == n && thing.id[1] == v;
    }
  }

  lemma WithoutVolumeAt(live: map<string, Group>, n: string, v: string)
    requires n in live
    ensures var r := live[n := live[n].(volumes := live[n].volumes - {v})];
            && (forall q, m, u :: VolumeAt(r, q, m, u) <==> VolumeAt(live, q, m, u) && !(m == n && u == v))
            && (forall q, m :: GroupAt(r, q, m) <==> GroupAt(live, q, m))
  {
  }

  lemma UnpublishVolume(bus: Table, live: map<string, Group>, n: string, v: string, p: Path)
    requires ShowsAll(bus, live) && VolumeAt(live, p, n, v)
    ensures Takes(bus, Unpublish(p, VolumeThing(n, v)))
    ensures ShowsAll(Apply(bus, Unpublish(p, VolumeThing(n, v))), live[n := live[n].(volumes := live[n].volumes - {v})])
  {
    HoldsMeans(live, p);
    WithoutVolumeAt(live, n, v);
    var bus', live' := Apply(bus, Unpublish(p, VolumeThing(n, v))), live[n := live[n].(volumes := live[n].volumes - {v})];
    forall q, thing
      ensures (q, thing) in bus' <==> Holds(live', q, thing)
    {
      if |thing.id| == 2 && thing == VolumeThing(thing.id[0], thing.id[1]) {
        assert thing == VolumeThing(n, v) <==> thing.id[0] == n && thing.id[1] == v;
      }
    }
  }

  lemma PublishedGroup(bus: Table, live: map<string, Group>, n: string)
    requires ShowsAll(bus, live) && n in live && GroupInv(n, live[n]) && live[n].needPublish
    ensures Takes(bus, Publish(GroupPath(n), GroupThing(n)))
    ensures ShowsAll(Apply(bus, Publish(GroupPath(n), GroupThing(n))), PublishGroup(live, n))
  {
    HoldsMeans(live, GroupPath(n));
    PublishAt(live, n);
    var bus', live' := Apply(bus, Publish(GroupPath(n), GroupThing(n))), PublishGroup(live, n);
    forall q, thing
      ensures (q, thing) in bus' <==> Holds(live', q, thing)
    {
      if |thing.id| == 1 && thing == GroupThing(thing.id[0]) {
        assert thing == GroupThing(n) <==> thing.id[0] == n;
      }
    }
  }

  lemma UnpublishGroup(bus: Table, live: map<string, Group>, n: string, p: Path)
    requires ShowsAll(bus, live) && GroupAt(live, p, n) && live[n].volumes == map[]
    ensures Takes(bus, Unpublish(p, GroupThing(n)))
    ensures ShowsAll(Apply(bus, Unpublish(p, GroupThing(n))), live - {n})
  {
    HoldsMeans(live, p);
    var bus', live' := Apply(bus, Unpublish(p, GroupThing(n))), live - {n};
    forall q, thing
      ensures (q, thing) in bus' <==> Holds(live', q, thing)
    {
      if |thing.id| == 1 && thing == GroupThing(thing.id[0]) {
        assert thing == GroupThing(n) <==> thing.id[0] == n;
      }
    }
  }

  // --- One callback -----------------------------------------------------------------------------

  lemma EntryKeepsParents(live: map<string, Group>, n: string, e: LvInfo)
    requires n in live && GroupShape(n, live[n]) && Collisions.Orphanless(live)
    ensures Collisions.Orphanless(TakeEntry(live, n, e))
  {
    Collisions.TakeEntryAt(live, n, e);
    var r := TakeEntry(live, n, e);
    assert live[n].path.Some? ==> GroupAt(r, GroupPath(n), n);
    forall p | Collisions.HasGroup(live, p)
      ensures Collisions.HasGroup(r, p)
    {
      var h :| GroupAt(live, p, h);
      assert GroupAt(r, p, h);
    }
  }

  lemma EntryLeads(bus: Table, live: map<string, Group>, n: string, e: LvInfo, tidy: bool)
    requires ShowsAll(bus, live) && LooseShapes(live) && n in live && (tidy ==> Collisions.Orphanless(live))
    ensures Leads(bus, EntryOps(live, n, e), TakeEntry(live, n, e), tidy)
    ensures tidy ==> Collisions.Orphanless(TakeEntry(live, n, e))
  {
    assert GroupShape(n, live[n]);
    if tidy { EntryKeepsParents(live, n, e); }
    var g, r := live[n], TakeEntry(live, n, e);
    var p := Child(g.path, e.name);
    if !IsVisible(e.name) {
      NoCall(bus, live, r, tidy);
    } else if e.name in g.volumes {
      WithVolumeAt(live, n, e.name, UpdateVolume(g.volumes[e.name], g.path, e));
      SamePath(live, n, e);
      NoCall(bus, live, r, tidy);
    } else if p.Some? {
      PublishVolume(bus, live, n, e.name, UpdateVolume(NEW_VOLUME, g.path, e), p.value);
      OneCall(bus, Publish(p.value, VolumeThing(n, e.name)), r, tidy);
    } else {
      WithVolumeAt(live, n, e.name, UpdateVolume(NEW_VOLUME, g.path, e));
      NoCall(bus, live, r, tidy);
    }
  }

  lemma SamePath(live: map<string, Group>, n: string, e: LvInfo)
    requires LooseShapes(live) && n in live && e.name in live[n].volumes
    ensures forall p :: VolumeAt(live, p, n, e.name) <==> UpdateVolume(live[n].volumes[e.name], live[n].path, e).path == Some(p)
  {
    assert GroupShape(n, live[n]) && VolumeInv(n, e.name, live[n].volumes[e.name]);
  }

  lemma {:induction false} AddLeads(bus: Table, live: map<string, Group>, n: string, entries: seq<LvInfo>, tidy: bool)
    requires ShowsAll(bus, live) && LooseShapes(live) && Unique(live) && n in live && (tidy ==> Collisions.Orphanless(live))
    ensures Leads(bus, AddOps(live, n, entries), TakeEntries(live, n, entries), tidy)
    ensures tidy ==> Collisions.Orphanless(TakeEntries(live, n, entries))
  {
    if entries == [] {
      NoCall(bus, live, live, tidy);
    } else {
      var last := |entries| - 1;
      var before, ops := TakeEntries(live, n, entries[..last]), AddOps(live, n, entries[..last]);
      AddLeads(bus, live, n, entries[..last], tidy);
      TakeEntriesShape(live, n, entries[..last]);
      EntryLeads(DoAll(bus, ops), before, n, entries[last], tidy);
      LeadsOn(bus, ops, EntryOps(before, n, entries[last]), before, TakeEntries(live, n, entries), tidy);
    }
  }

  // The table after the names in `order` were taken out.
  function Dropped(volumes: map<string, Volume>, order: seq<string>): map<string, Volume> {
    if order == [] then volumes else Dropped(volumes, order[..|order| - 1]) - {order[|order| - 1]}
  }

  lemma {:induction false} DroppedMeans(volumes: map<string, Volume>, order: seq<string>)
    ensures Dropped(volumes, order) == volumes - set n | n in order
  {
    if order != [] {
      var last := |order| - 1;
      DroppedMeans(volumes, order[..last]);
      assert order == order[..last] + [order[last]];
    }
  }

  lemma FewerVolumes(live: map<string, Group>, r: map<string, Group>)
    requires Collisions.Orphanless(live)
    requires forall p, n, v :: VolumeAt(r, p, n, v) ==> VolumeAt(live, p, n, v)
    requires forall p, n :: GroupAt(r, p, n) <==> GroupAt(live, p, n)
    ensures Collisions.Orphanless(r)
  {
    forall p | Collisions.HasGroup(live, p)
      ensures Collisions.HasGroup(r, p)
    {
      var h :| GroupAt(live, p, h);
      assert GroupAt(r, p, h);
    }
  }

  lemma DropOneLeads(bus: Table, live: map<string, Group>, n: string, v: string, tidy: bool)
    requires ShowsAll(bus, live) && n in live && (tidy ==> Collisions.Orphanless(live))
    ensures var r := live[n := live[n].(volumes := live[n].volumes - {v})];
            Leads(bus, DropOneOps(live[n], n, v), r, tidy) && (tidy ==> Collisions.Orphanless(r))
  {
    var r := live[n := live[n].(volumes := live[n].volumes - {v})];
    WithoutVolumeAt(live, n, v);
    if tidy { FewerVolumes(live, r); }
    if DropOneOps(live[n], n, v) == [] {
      NoCall(bus, live, r, tidy);
    } else {
      var p := live[n].volumes[v].path.value;
      UnpublishVolume(bus, live, n, v, p);
      OneCall(bus, Unpublish(p, VolumeThing(n, v)), r, tidy);
    }
  }

  function WithDropped(live: map<string, Group>, n: string, order: seq<string>): map<string, Group>
    requires n in live
  {
    live[n := live[n].(volumes := Dropped(live[n].volumes, order))]
  }

  lemma DroppedOneMore(live: map<string, Group>, n: string, order: seq<string>)
    requires n in live && order != [] && NoRepeats(order)
    ensures var mid, v := WithDropped(live, n, order[..|order| - 1]), order[|order| - 1];
            && mid[n := mid[n].(volumes := mid[n].volumes - {v})] == WithDropped(live, n, order)
            && DropOneOps(mid[n], n, v) == DropOneOps(live[n], n, v)
  {
    DroppedMeans(live[n].volumes, order[..|order| - 1]);
    assert order[|order| - 1] !in order[..|order| - 1];
  }

  lemma {:induction false} DropLeads(bus: Table, live: map<string, Group>, n: string, order: seq<string>, tidy: bool)
    requires ShowsAll(bus, live) && n in live && NoRepeats(order) && (tidy ==> Collisions.Orphanless(live))
    ensures var r := WithDropped(live, n, order);
            Leads(bus, DropOps(live[n], n, order), r, tidy) && (tidy ==> Collisions.Orphanless(r))
  {
    if order == [] {
      assert live[n := live[n]] == live;
      NoCall(bus, live, live, tidy);
    } else {
      var last := |order| - 1;
      var ops, mid := DropOps(live[n], n, order[..last]), WithDropped(live, n, order[..last]);
      DropLeads(bus, live, n, order[..last], tidy);
      DroppedOneMore(live, n, order);
      DropOneLeads(DoAll(bus, ops), mid, n, order[last], tidy);
      LeadsOn(bus, ops, DropOneOps(live[n], n, order[last]), mid, WithDropped(live, n, order), tidy);
    }
  }

  lemma PublishLeads(bus: Table, live: map<string, Group>, n: string, tidy: bool)
    requires ShowsAll(bus, live) && Shapes(live) && n in live && (tidy ==> Collisions.Orphanless(live))
    ensures Leads(bus, PublishOps(live, n), PublishGroup(live, n), tidy)
    ensures tidy ==> Collisions.Orphanless(PublishGroup(live, n))
  {
    assert GroupInv(n, live[n]);
    if tidy {
      Collisions.PublishKeepsParents(live, n);
      Collisions.ParentsKept(live, PublishGroup(live, n));
    }
    if live[n].needPublish {
      PublishedGroup(bus, live, n);
      OneCall(bus, Publish(GroupPath(n), GroupThing(n)), PublishGroup(live, n), tidy);
    } else {
      NoCall(bus, live, live, tidy);
    }
  }

  lemma ReconcileLeads(bus: Table, live: map<string, Group>, n: string, r: VgInfo, walk: Walk, tidy: bool)
    requires Walks(walk) && ShowsAll(bus, live) && LooseShapes(live) && Unique(live) && n in live
    requires tidy ==> Collisions.Orphanless(live)
    ensures Leads(bus, ReconcileOps(live, n, r, walk), Reconcile(live, n, r), tidy)
  {
    var all, ops := TakeEntries(live, n, r.lvs), AddOps(live, n, r.lvs);
    AddLeads(bus, live, n, r.lvs, tidy);
    VanishedLead(DoAll(bus, ops), all, n, r, walk, tidy);
    LeadsOn(bus, ops, DropOps(all[n], n, walk(n, Vanished(all[n], r))), all, Reconcile(live, n, r), tidy);
  }

  lemma VanishedLead(bus: Table, all: map<string, Group>, n: string, r: VgInfo, walk: Walk, tidy: bool)
    requires Walks(walk) && ShowsAll(bus, all) && n in all && (tidy ==> Collisions.Orphanless(all))
    ensures Leads(bus, DropOps(all[n], n, walk(n, Vanished(all[n], r))), all[n := DropVanished(all[n], r)], tidy)
  {
    var order := walk(n, Vanished(all[n], r));
    DropLeads(bus, all, n, order, tidy);
    VanishedDropped(all[n], r, order);
    SamePaths(DoAll(bus, DropOps(all[n], n, order)), WithDropped(all, n, order), all[n := DropVanished(all[n], r)]);
  }

  lemma VanishedDropped(g: Group, r: VgInfo, order: seq<string>)
    requires Enumerates(order, Vanished(g, r))
    ensures Dropped(g.volumes, order) == DropVanished(g, r).volumes
  {
    DroppedMeans(g.volumes, order);
    assert (set v | v in order) == Vanished(g, r);
  }

  lemma SamePaths(bus: Table, live: map<string, Group>, r: map<string, Group>)
    requires ShowsAll(bus, live) && live.Keys == r.Keys
    requires forall n :: n in live ==> live[n].path == r[n].path && live[n].volumes == r[n].volumes
    ensures ShowsAll(bus, r)
  {
    assert forall p, m :: GroupAt(live, p, m) <==> GroupAt(r, p, m);
    assert forall p, m, v :: VolumeAt(live, p, m, v) <==> VolumeAt(r, p, m, v);
  }

  lemma ShowLeads(bus: Table, w: World, n: string, reply: Reply, walk: Walk, tidy: bool)
    requires Walks(walk) && ShowsAll(bus, w.live) && Displacement.Inv(w) && n in w.live && (tidy ==> Collisions.Orphanless(w.live))
    ensures Leads(bus, ShowOps(w.live, n, reply, walk), ShowLive(w, n, reply).live, tidy)
  {
    var named := SetProps(w.live, n, reply);
    SetPropsKeepsInv(w.live, n, reply);
    SetPropsShown(bus, w.live, n, reply);
    if tidy {
      Collisions.SetPropsKeepsParents(w.live, n, reply);
      Collisions.ParentsKept(w.live, named);
    }
    PublishLeads(bus, named, n, tidy);
    PublishKeepsInv(named, n);
    var received := PublishGroup(named, n);
    if IsChange(w.live[n], reply) {
      LooseFromShapes(received);
      ReconcileLeads(DoAll(bus, PublishOps(named, n)), received, n, reply.value, walk, tidy);
      LeadsOn(bus, PublishOps(named, n), ReconcileOps(received, n, reply.value, walk), received, Reconcile(received, n, reply.value), tidy);
    } else {
      assert ShowOps(w.live, n, reply, walk) == PublishOps(named, n);
    }
  }

  lemma SetPropsShown(bus: Table, live: map<string, Group>, n: string, reply: Reply)
    requires ShowsAll(bus, live) && n in live
    ensures ShowsAll(bus, SetProps(live, n, reply))
  {
    var r := SetProps(live, n, reply);
    assert forall p, m :: GroupAt(live, p, m) <==> GroupAt(r, p, m);
    assert forall p, m, v :: VolumeAt(live, p, m, v) <==> VolumeAt(r, p, m, v);
  }

  // No volume of another group is below the path of group n.
  ghost predicate Childless(live: map<string, Group>, n: string) {
    forall p, m, v :: VolumeAt(live, p, m, v) && m != n ==> GroupPath(m) != GroupPath(n)
  }

  lemma WithoutGroup(live: map<string, Group>, n: string)
    requires n in live && live[n].volumes == map[] && (live[n].path.Some? ==> live[n].path == Some(GroupPath(n)))
    requires Collisions.Orphanless(live) && Childless(live, n)
    ensures Collisions.Orphanless(live - {n})
  {
    var r := live - {n};
    forall p, m, v | VolumeAt(r, p, m, v)
      ensures Collisions.HasGroup(r, GroupPath(m))
    {
      assert VolumeAt(live, p, m, v);
      var h :| GroupAt(live, GroupPath(m), h);
      assert GroupAt(r, GroupPath(m), h);
    }
  }

  lemma EmptyLeads(bus: Table, empty: map<string, Group>, n: string, tidy: bool)
    requires ShowsAll(bus, empty) && n in empty && empty[n].volumes == map[] && GroupShape(n, empty[n])
    requires tidy ==> Collisions.Orphanless(empty) && Childless(empty, n)
    ensures var ops := if empty[n].path.Some? then [Unpublish(empty[n].path.value, GroupThing(n))] else [];
            Leads(bus, ops, empty - {n}, tidy)
    ensures tidy ==> Collisions.Orphanless(empty - {n})
  {
    if tidy { WithoutGroup(empty, n); }
    if empty[n].path.Some? {
      var p := empty[n].path.value;
      UnpublishGroup(bus, empty, n, p);
      OneCall(bus, Unpublish(p, GroupThing(n)), empty - {n}, tidy);
    } else {
      assert forall p, m :: GroupAt(empty, p, m) <==> GroupAt(empty - {n}, p, m);
      assert forall p, m, v :: VolumeAt(empty, p, m, v) <==> VolumeAt(empty - {n}, p, m, v);
      NoCall(bus, empty, empty - {n}, tidy);
    }
  }

  lemma FewerChildren(live: map<string, Group>, n: string)
    requires n in live && Childless(live, n)
    ensures Childless(live[n := live[n].(volumes := map[])], n)
  {
    var empty := live[n := live[n].(volumes := map[])];
    assert forall p, m, v :: VolumeAt(empty, p, m, v) ==> VolumeAt(live, p, m, v);
  }

  lemma DisposeLeads(bus: Table, live: map<string, Group>, n: string, walk: Walk, tidy: bool)
    requires Walks(walk) && ShowsAll(bus, live) && n in live && GroupShape(n, live[n])
    requires tidy ==> Collisions.Orphanless(live) && Childless(live, n)
    ensures Leads(bus, DisposeOps(live[n], n, walk), live - {n}, tidy)
    ensures tidy ==> Collisions.Orphanless(live - {n})
  {
    var order := walk(n, live[n].volumes.Keys);
    var ops := DropOps(live[n], n, order);
    DropLeads(bus, live, n, order, tidy);
    DroppedMeans(live[n].volumes, order);
    assert (set v | v in order) == live[n].volumes.Keys;
    assert Dropped(live[n].volumes, order) == map[];
    var empty := live[n := live[n].(volumes := map[])];
    assert empty - {n} == live - {n};
    if tidy { FewerChildren(live, n); }
    EmptyLeads(DoAll(bus, ops), empty, n, tidy);
    LeadsOn(bus, ops, if empty[n].path.Some? then [Unpublish(empty[n].path.value, GroupThing(n))] else [], empty, live - {n}, tidy);
  }

  lemma ApartIsChildless(live: map<string, Group>, r: map<string, Group>, n: string)
    requires Collisions.NamesApart(live.Keys) && r.Keys <= live.Keys && n in live
    ensures Childless(r, n)
  {
    forall p, m, v | VolumeAt(r, p, m, v) && m != n
      ensures GroupPath(m) != GroupPath(n)
    {
      MirrorTheorems.SameGroupPath(m, n);
    }
  }

  function LiveWithout(live: map<string, Group>, gone: seq<string>): map<string, Group> {
    live - set n | n in gone
  }

  lemma OneLess(live: map<string, Group>, gone: seq<string>)
    requires gone != [] && NoRepeats(gone) && forall n :: n in gone ==> n in live
    ensures var last := |gone| - 1;
            && (forall n :: n in gone[..last] ==> n in live) && NoRepeats(gone[..last]) && gone[last] in live
            && gone[last] in LiveWithout(live, gone[..last]) && LiveWithout(live, gone[..last]).Keys <= live.Keys
            && LiveWithout(live, gone[..last])[gone[last]] == live[gone[last]]
            && LiveWithout(live, gone) == LiveWithout(live, gone[..last]) - {gone[last]}
  {
    var last := |gone| - 1;
    assert gone == gone[..last] + [gone[last]];
    assert gone[last] !in gone[..last];
  }

  lemma {:induction false} RemoveLeads(bus: Table, live: map<string, Group>, gone: seq<string>, walk: Walk, tidy: bool)
    requires Walks(walk) && LooseShapes(live) && ShowsAll(bus, live)
    requires NoRepeats(gone) && forall n :: n in gone ==> n in live
    requires tidy ==> Collisions.Orphanless(live) && Collisions.NamesApart(live.Keys)
    ensures Leads(bus, RemoveOps(live, gone, walk), LiveWithout(live, gone), tidy)
    ensures tidy ==> Collisions.Orphanless(LiveWithout(live, gone))
  {
    if gone == [] {
      assert LiveWithout(live, gone) == live;
      NoCall(bus, live, live, tidy);
    } else {
      var last := |gone| - 1;
      OneLess(live, gone);
      RemoveLeads(bus, live, gone[..last], walk, tidy);
      RemoveOneLeads(bus, RemoveOps(live, gone[..last], walk), live, LiveWithout(live, gone[..last]), gone[last], walk, tidy);
    }
  }

  lemma RemoveOneLeads(bus: Table, ops: seq<Op>, all: map<string, Group>, live: map<string, Group>, n: string, walk: Walk, tidy: bool)
    requires Walks(walk) && Leads(bus, ops, live, tidy) && (tidy ==> Collisions.Orphanless(live) && Collisions.NamesApart(all.Keys))
    requires live.Keys <= all.Keys && n in live && live[n] == all[n] && GroupShape(n, all[n])
    ensures Leads(bus, ops + DisposeOps(all[n], n, walk), live - {n}, tidy)
    ensures tidy ==> Collisions.Orphanless(live - {n})
  {
    if tidy { ApartIsChildless(all, live, n); }
    DisposeLeads(DoAll(bus, ops), live, n, walk, tidy);
    LeadsOn(bus, ops, DisposeOps(all[n], n, walk), live, live - {n}, tidy);
  }

  lemma EnsureOneLeads(bus: Table, live: map<string, Group>, n: string, fails: bool, tidy: bool)
    requires ShowsAll(bus, live) && Shapes(live) && (tidy ==> Collisions.Orphanless(live))
    ensures Leads(bus, EnsureOneOps(live, n, fails), EnsureOne(live, n, fails), tidy)
    ensures tidy ==> Collisions.Orphanless(EnsureOne(live, n, fails))
  {
    var known := if n in live then live else live[n := NewGroup(n)];
    assert forall p, m :: GroupAt(known, p, m) <==> GroupAt(live, p, m);
    assert forall p, m, v :: VolumeAt(known, p, m, v) <==> VolumeAt(live, p, m, v);
    if tidy { FewerVolumes(live, known); }
    if fails {
      assert Shapes(known);
      PublishLeads(bus, known, n, tidy);
    } else {
      NoCall(bus, live, known, tidy);
    }
  }

  lemma {:induction false} EnsureLeads(bus: Table, live: map<string, Group>, names: seq<string>, failed: set<nat>, tidy: bool)
    requires ShowsAll(bus, live) && Shapes(live) && Unique(live) && (tidy ==> Collisions.Orphanless(live))
    ensures Leads(bus, EnsureOps(live, names, failed), EnsureAll(live, names, failed), tidy)
    ensures tidy ==> Collisions.Orphanless(EnsureAll(live, names, failed))
  {
    if names == [] {
      NoCall(bus, live, live, tidy);
    } else {
      var last := |names| - 1;
      var before, ops := EnsureAll(live, names[..last], failed), EnsureOps(live, names[..last], failed);
      EnsureLeads(bus, live, names[..last], failed, tidy);
      EnsureAllKeepsInv(live, names[..last], failed);
      EnsureOneLeads(DoAll(bus, ops), before, names[last], last in failed, tidy);
      LeadsOn(bus, ops, EnsureOneOps(before, names[last], last in failed), before, EnsureAll(live, names, failed), tidy);
    }
  }

  // --- Disposed groups --------------------------------------------------------------------------

  // Nothing of the group has a path.
  predicate OffBus(live: map<string, Group>, n: string) {
    n in live && live[n].path.None? && !live[n].needPublish && forall v :: v in live[n].volumes ==> live[n].volumes[v].path.None?
  }

  lemma {:induction false} OffBusStays(live: map<string, Group>, n: string, entries: seq<LvInfo>)
    requires OffBus(live, n)
    ensures OffBus(TakeEntries(live, n, entries), n) && AddOps(live, n, entries) == []
  {
    if entries != [] {
      OffBusStays(live, n, entries[..|entries| - 1]);
    }
  }

  lemma {:induction false} NothingToDrop(g: Group, n: string, order: seq<string>)
    requires forall v :: v in g.volumes ==> g.volumes[v].path.None?
    ensures DropOps(g, n, order) == []
  {
    if order != [] {
      NothingToDrop(g, n, order[..|order| - 1]);
    }
  }

  /** A late reply to a disposed group publishes nothing and unpublishes nothing. */
  lemma DeadIsSilent(g: Group, reply: Reply, walk: Walk)
    requires MirrorRuns.DeadInv(g)
    ensures DeadOps(g, reply, walk) == []
  {
    var named := SetProps(map[g.name := g], g.name, reply);
    if IsChange(g, reply) {
      OffBusStays(named, g.name, reply.value.lvs);
      var all := TakeEntries(named, g.name, reply.value.lvs);
      NothingToDrop(all[g.name], g.name, walk(g.name, Vanished(all[g.name], reply.value)));
    }
  }

  // --- All callbacks ----------------------------------------------------------------------------

  lemma PollShows(bus: Table, w: World, t: Target, r: VgInfo)
    requires Displacement.Inv(w) && ShowsAll(bus, w.live) && Known(w, t)
    ensures ShowsAll(bus, Store(w, t, Polled(Find(w, t), r)).live)
  {
    if t.Live? {
      var g := w.live[t.name];
      assert GroupInv(t.name, g);
      PollKeepsPlaces(g.volumes, g.path, r.lvs);
      var s := Store(w, t, Polled(g, r)).live;
      assert forall p, m :: GroupAt(w.live, p, m) <==> GroupAt(s, p, m);
      assert forall p, m, v :: VolumeAt(w.live, p, m, v) <==> VolumeAt(s, p, m, v);
    }
  }

  /** The calls of one event: each has an effect, and in the end the registry has the objects of
      the new world at their paths. Nothing is orphaned on the way, unless a list reply comes
      while two groups have names that collide. */
  lemma OpsLead(bus: Table, w: World, e: Event, walk: Walk, tidy: bool)
    requires Walks(walk) && Displacement.Inv(w) && ShowsAll(bus, w.live) && Enabled(w, e)
    requires tidy ==> Collisions.Orphanless(w.live) && (e.List? ==> Collisions.NamesApart(w.live.Keys))
    ensures Leads(bus, Ops(w, e, walk), Displacement.Step(w, e).live, tidy)
  {
    match e
    case Show(Live(n), reply) => ShowLeads(bus, w, n, reply, walk, tidy);
    case Show(Dead(i), reply) => DeadIsSilent(w.dead[i], reply, walk);
    case Poll(t, r) => PollShows(bus, w, t, r);
    case List(names, gone, failed) =>
      var ops, live := RemoveOps(w.live, gone, walk), RemoveAll(w, gone).live;
      LooseFromShapes(w.live);
      RemoveLeads(bus, w.live, gone, walk, tidy);
      assert live == LiveWithout(w.live, gone);
      RemoveAllKeepsDead(w, gone);
      EnsureLeads(DoAll(bus, ops), live, names, failed, tidy);
      LeadsOn(bus, ops, EnsureOps(live, names, failed), live, EnsureAll(live, names, failed), tidy);
    case BlockAdded(_, _, _) =>
    case BlockRemoved(_) =>
    case LastUnref(i) =>
      var g := w.dead[i];
      NothingToDrop(g, g.name, walk(g.name, g.volumes.Keys));
  }

  // --- All runs ---------------------------------------------------------------------------------

  /** All calls of the first i events; each event has its own walks. */
  ghost function CallsOf(states: seq<World>, events: seq<Event>, walks: seq<Walk>, i: nat): seq<Op>
    requires Displacement.IsRun(states, events) && |walks| == |events| && i <= |events|
  {
    if i == 0 then []
    else CallsOf(states, events, walks, i - 1) + Ops(states[i - 1], events[i - 1], walks[i - 1])
  }

  ghost predicate AllWalk(walks: seq<Walk>) {
    forall i :: 0 <= i < |walks| ==> Walks(walks[i])
  }

  lemma {:induction false} ApplyMore(a: seq<Op>, b: seq<Op>)
    ensures ApplyAll(a + b) == DoAll(ApplyAll(a), b)
  {
    if b == [] {
      assert a + b == a;
    } else {
      var last := |b| - 1;
      ApplyMore(a, b[..last]);
      assert (a + b)[..|a + b| - 1] == a + b[..last] && (a + b)[|a + b| - 1] == b[last];
      assert ApplyAll(a + b) == Apply(ApplyAll(a + b[..last]), b[last]);
    }
  }

  /** In every run the registry, after all calls, has exactly the live groups and volumes at the
      paths the world gives them; so the paths that `Displacement` takes away are the ones that
      the registry takes away. */
  lemma {:induction false} BusShowsWorld(states: seq<World>, events: seq<Event>, walks: seq<Walk>, i: nat)
    requires Displacement.IsRun(states, events) && |walks| == |events| && AllWalk(walks) && i <= |events|
    ensures ShowsAll(ApplyAll(CallsOf(states, events, walks, i)), states[i].live)
  {
    if i > 0 {
      BusShowsWorld(states, events, walks, i - 1);
      Displacement.InvAlways(states, events, i - 1);
      var calls, ops := CallsOf(states, events, walks, i - 1), Ops(states[i - 1], events[i - 1], walks[i - 1]);
      OpsLead(ApplyAll(calls), states[i - 1], events[i - 1], walks[i - 1], false);
      ApplyMore(calls, ops);
    }
  }

  /** In every run, whatever names there are, every single call has an effect: nothing is
      published that is there, nothing is unpublished that is not. */
  lemma EveryCallTakes(states: seq<World>, events: seq<Event>, walks: seq<Walk>, i: nat, k: nat)
    requires Displacement.IsRun(states, events) && |walks| == |events| && AllWalk(walks) && i < |events|
    requires k < |Ops(states[i], events[i], walks[i])|
    ensures var calls, ops := CallsOf(states, events, walks, i), Ops(states[i], events[i], walks[i]);
            Takes(ApplyAll(calls + ops[..k]), ops[k])
  {
    BusShowsWorld(states, events, walks, i);
    Displacement.InvAlways(states, events, i);
    var calls, ops := CallsOf(states, events, walks, i), Ops(states[i], events[i], walks[i]);
    OpsLead(ApplyAll(calls), states[i], events[i], walks[i], false);
    GoodMeans(ApplyAll(calls), ops, false, k);
    ApplyMore(calls, ops[..k]);
  }

  /** In every run whose group names are apart, with late replies and any walks: at no moment,
      also within a callback, is a volume on the bus without a group above it. */
  lemma NeverOrphaned(states: seq<World>, events: seq<Event>, walks: seq<Walk>, i: nat, k: nat)
    requires Displacement.IsRun(states, events) && |walks| == |events| && AllWalk(walks) && i < |events|
    requires forall j :: 0 <= j <= i ==> Collisions.NamesApart(states[j].live.Keys)
    requires k < |Ops(states[i], events[i], walks[i])|
    ensures var calls, ops := CallsOf(states, events, walks, i), Ops(states[i], events[i], walks[i]);
            NoOrphan(ApplyAll(calls)) && NoOrphan(ApplyAll(calls + ops[..k + 1]))
  {
    BusShowsWorld(states, events, walks, i);
    Displacement.InvAlways(states, events, i);
    Collisions.NoOrphans(states, events, i);
    var calls, ops := CallsOf(states, events, walks, i), Ops(states[i], events[i], walks[i]);
    TidyMeans(ApplyAll(calls), states[i].live);
    OpsLead(ApplyAll(calls), states[i], events[i], walks[i], true);
    GoodMeans(ApplyAll(calls), ops, true, k);
    ApplyMore(calls, ops[..k + 1]);
  }
}
