/** What the daemon shows of a group and its volumes is what it was told: each property, polling
    flag and table as a function of the replies that came since the group was listed. Here
    everything is said of the entries of the replies, character by character. */
module History {
  import opened Wrappers
  import opened LvmNames
  import opened MirrorState
  import opened Displacement
  import MirrorRuns

  // --- What a group was told ------------------------------------------------------------------

  /** A full reply, or a poll that was accepted. */
  datatype Word = Full(info: VgInfo) | Partial(info: VgInfo)

  // What the event tells group n.
  function Says(e: MirrorState.Event, n: string): seq<Word> {
    match e
    case Show(Live(m), Success(r)) => if m == n then [Full(r)] else []
    case Poll(Live(m), r) => if m == n then [Partial(r)] else []
    case _ => []
  }

  /** All that was told of n since it was listed without a gap. It depends on the events alone. */
  function Log(events: seq<MirrorState.Event>, n: string): seq<Word> {
    if events == [] then []
    else
      var e := events[|events| - 1];
      if e.List? && n !in e.names then [] else Log(events[..|events| - 1], n) + Says(e, n)
  }

  // The last full reply.
  function LastFull(log: seq<Word>): Option<VgInfo> {
    if log == [] then None
    else if log[|log| - 1].Full? then Some(log[|log| - 1].info)
    else LastFull(log[..|log| - 1])
  }

  // The entries of a list that name the volume.
  function Named(entries: seq<LvInfo>, v: string): seq<LvInfo> {
    if entries == [] then []
    else
      var e := entries[|entries| - 1];
      Named(entries[..|entries| - 1], v) + if e.name == v then [e] else []
  }

  /** The entries that described volume v since it is there. A full reply that repeats the last
      one does not count, one that does not list the volume ends it, and a poll does not make one. */
  function Entries(log: seq<Word>, v: string): seq<LvInfo> {
    if log == [] then []
    else
      var last := |log| - 1;
      var before, named := Entries(log[..last], v), Named(log[last].info.lvs, v);
      match log[last]
      case Full(r) =>
        if LastFull(log[..last]) == Some(r) then before
        else if named == [] then []
        else before + named
      case Partial(_) => if before == [] then [] else before + named
  }

  // --- What that makes of a volume --------------------------------------------------------------

  predicate SaysActive(e: LvInfo) {
    e.attr.Some? && |e.attr.value| > 6 && e.attr.value[4] == 'a'
  }

  predicate SaysPool(e: LvInfo) {
    e.attr.Some? && |e.attr.value| > 6 && e.attr.value[0] == 't' && e.attr.value[6] == 't'
  }

  // The k-th is the last that is given.
  predicate IsLastGiven<T>(h: seq<Option<T>>, k: nat) {
    k < |h| && h[k].Some? && forall i :: k < i < |h| ==> h[i].None?
  }

  /** The value that was last given, or what it is without one. */
  ghost predicate IsGiven<T>(x: T, h: seq<Option<T>>, none: T) {
    && (forall k: nat :: IsLastGiven(h, k) ==> x == h[k].value)
    && ((forall i :: 0 <= i < |h| ==> h[i].None?) ==> x == none)
  }

  lemma GivenOneMore<T>(x: T, h: seq<Option<T>>, none: T, o: Option<T>)
    requires IsGiven(x, h, none)
    ensures IsGiven(Or(o, x), h + [o], none)
  {
    var longer := h + [o];
    assert longer[|h|] == o && forall i :: 0 <= i < |h| ==> longer[i] == h[i];
    assert o.None? ==> forall k: nat :: IsLastGiven(longer, k) ==> IsLastGiven(h, k);
  }

  function Uuids(h: seq<LvInfo>): seq<Option<string>> {
    seq(|h|, i requires 0 <= i < |h| => h[i].uuid)
  }

  function Sizes(h: seq<LvInfo>): seq<Option<nat>> {
    seq(|h|, i requires 0 <= i < |h| => h[i].size)
  }

  /** The properties of a volume that was described by these entries: state and kind are those of
      the last one, uuid and size those that were last given. */
  ghost predicate VolumeIs(p: LvProps, h: seq<LvInfo>) {
    && (h == [] ==> p == LvProps("", 0, "", false))
    && (h != [] ==> (p.active <==> SaysActive(h[|h| - 1])) && p.kind == if SaysPool(h[|h| - 1]) then "pool" else "block")
    && IsGiven(p.uuid, Uuids(h), "") && IsGiven(p.size, Sizes(h), 0)
  }

  lemma VolumeOneMore(p: LvProps, h: seq<LvInfo>, e: LvInfo)
    requires VolumeIs(p, h)
    ensures VolumeIs(UpdateProps(p, e), h + [e])
  {
    assert Uuids(h + [e]) == Uuids(h) + [e.uuid] && Sizes(h + [e]) == Sizes(h) + [e.size];
    GivenOneMore(p.uuid, Uuids(h), "", e.uuid);
    GivenOneMore(p.size, Sizes(h), 0, e.size);
  }

  lemma NewVolumeIs()
    ensures VolumeIs(NEW_VOLUME.props, [])
  {
  }

  // --- What that makes of a group ---------------------------------------------------------------

  /** The figures of a group: each as a full reply or a poll gave it last, repetitions included. */
  ghost predicate GroupIs(p: VgProps, log: seq<Word>) {
    && IsGiven(p.uuid, seq(|log|, i requires 0 <= i < |log| => log[i].info.uuid), "")
    && IsGiven(p.size, seq(|log|, i requires 0 <= i < |log| => log[i].info.size), 0)
    && IsGiven(p.freeSize, seq(|log|, i requires 0 <= i < |log| => log[i].info.freeSize), 0)
    && IsGiven(p.extentSize, seq(|log|, i requires 0 <= i < |log| => log[i].info.extentSize), 0)
  }

  lemma GroupOneMore(p: VgProps, log: seq<Word>, w: Word)
    requires GroupIs(p, log)
    ensures GroupIs(UpdateVgProps(p, w.info), log + [w])
  {
    var uuids := seq(|log|, i requires 0 <= i < |log| => log[i].info.uuid);
    var sizes := seq(|log|, i requires 0 <= i < |log| => log[i].info.size);
    var frees := seq(|log|, i requires 0 <= i < |log| => log[i].info.freeSize);
    var extents := seq(|log|, i requires 0 <= i < |log| => log[i].info.extentSize);
    GivenOneMore(p.uuid, uuids, "", w.info.uuid);
    GivenOneMore(p.size, sizes, 0, w.info.size);
    GivenOneMore(p.freeSize, frees, 0, w.info.freeSize);
    GivenOneMore(p.extentSize, extents, 0, w.info.extentSize);
    var longer := log + [w];
    assert seq(|longer|, i requires 0 <= i < |longer| => longer[i].info.uuid) == uuids + [w.info.uuid];
    assert seq(|longer|, i requires 0 <= i < |longer| => longer[i].info.size) == sizes + [w.info.size];
    assert seq(|longer|, i requires 0 <= i < |longer| => longer[i].info.freeSize) == frees + [w.info.freeSize];
    assert seq(|longer|, i requires 0 <= i < |longer| => longer[i].info.extentSize) == extents + [w.info.extentSize];
  }

  /** Clients should poll: a move is going on, or the group has a thin volume that is shown. */
  predicate WantsPolling(lvs: seq<LvInfo>) {
    exists i :: 0 <= i < |lvs| &&
                ("pvmove" <= lvs[i].name ||
                 (!IsReserved(lvs[i].name) && lvs[i].attr.Some? && |lvs[i].attr.value| > 6 && lvs[i].attr.value[6] == 't'))
  }

  lemma PollingMeans(lvs: seq<LvInfo>)
    ensures NeedsPolling(lvs) <==> WantsPolling(lvs)
  {
    assert forall i :: 0 <= i < |lvs| ==>
      (Polls(lvs[i]) <==>
       "pvmove" <= lvs[i].name ||
       (!IsReserved(lvs[i].name) && lvs[i].attr.Some? && |lvs[i].attr.value| > 6 && lvs[i].attr.value[6] == 't'));
  }

  /** The group shows what it was told, and nothing else. */
  ghost predicate Knows(g: Group, log: seq<Word>) {
    && g.info == LastFull(log)
    && GroupIs(g.props, log)
    && (g.needsPolling <==> g.info.Some? && WantsPolling(g.info.value.lvs))
    && g.pvs == (if g.info.Some? then PvTable(g.info.value.pvs) else map[])
    && VolumesKnow(g.volumes, log)
    && (g.info.None? ==> g.volumes == map[])
  }

  ghost predicate VolumesKnow(volumes: map<string, Volume>, log: seq<Word>) {
    && (forall v :: v in volumes <==> IsVisible(v) && Entries(log, v) != [])
    && (forall v :: v in volumes ==> VolumeIs(volumes[v].props, Entries(log, v)))
  }

  // --- One reply ----------------------------------------------------------------------------------

  lemma {:induction false} NamedListed(entries: seq<LvInfo>, v: string)
    ensures v in VisibleNames(entries) <==> IsVisible(v) && Named(entries, v) != []
  {
    if entries != [] {
      NamedListed(entries[..|entries| - 1], v);
      MirrorRuns.VisibleNamesOneMore(entries);
    }
  }

  // Volume v, if it is there, was described by h.
  ghost predicate IsDescribed(volumes: map<string, Volume>, v: string, h: seq<LvInfo>) {
    (v in volumes <==> h != []) && (v in volumes ==> VolumeIs(volumes[v].props, h))
  }

  lemma DescribedOneMore(volumes: map<string, Volume>, gp: Option<Path>, v: string, h: seq<LvInfo>, e: LvInfo)
    requires IsDescribed(volumes, v, h) && e.name == v
    ensures var before := if v in volumes then volumes[v] else NEW_VOLUME;
            IsDescribed(volumes[v := UpdateVolume(before, gp, e)], v, h + [e])
  {
    NewVolumeIs();
    VolumeOneMore(if v in volumes then volumes[v].props else NEW_VOLUME.props, h, e);
  }

  // The entry, if it names v.
  function OfName(e: LvInfo, v: string): seq<LvInfo> {
    if e.name == v then [e] else []
  }

  lemma EntryIsDescribed(volumes: map<string, Volume>, gp: Option<Path>, v: string, h: seq<LvInfo>, e: LvInfo)
    requires IsVisible(v) && IsDescribed(volumes, v, h)
    ensures IsDescribed(WithEntry(volumes, gp, e), v, h + OfName(e, v))
  {
    if e.name == v {
      DescribedOneMore(volumes, gp, v, h, e);
    } else {
      assert h + [] == h;
    }
  }

  lemma PollIsDescribed(volumes: map<string, Volume>, gp: Option<Path>, v: string, h: seq<LvInfo>, e: LvInfo)
    requires v in volumes && IsDescribed(volumes, v, h)
    ensures var r := if e.name in volumes then volumes[e.name := UpdateVolume(volumes[e.name], gp, e)] else volumes;
            IsDescribed(r, v, h + OfName(e, v))
  {
    if e.name == v {
      DescribedOneMore(volumes, gp, v, h, e);
    } else {
      assert h + [] == h;
    }
  }

  lemma NamedOneMore(h: seq<LvInfo>, entries: seq<LvInfo>, v: string)
    requires entries != []
    ensures var last := |entries| - 1;
            h + Named(entries, v) == (h + Named(entries[..last], v)) + OfName(entries[last], v)
  {
  }

  lemma {:induction false} AddedIsDescribed(volumes: map<string, Volume>, gp: Option<Path>, v: string, h: seq<LvInfo>, entries: seq<LvInfo>)
    requires IsVisible(v) && IsDescribed(volumes, v, h)
    ensures IsDescribed(AddEntries(volumes, gp, entries), v, h + Named(entries, v))
  {
    if entries != [] {
      var last := |entries| - 1;
      AddedIsDescribed(volumes, gp, v, h, entries[..last]);
      NamedOneMore(h, entries, v);
      EntryIsDescribed(AddEntries(volumes, gp, entries[..last]), gp, v, h + Named(entries[..last], v), entries[last]);
    } else {
      assert h + [] == h;
    }
  }

  lemma {:induction false} PolledIsDescribed(volumes: map<string, Volume>, gp: Option<Path>, v: string, h: seq<LvInfo>, entries: seq<LvInfo>)
    requires v in volumes && IsDescribed(volumes, v, h)
    ensures v in PollEntries(volumes, gp, entries) && IsDescribed(PollEntries(volumes, gp, entries), v, h + Named(entries, v))
  {
    if entries != [] {
      var last := |entries| - 1;
      PolledIsDescribed(volumes, gp, v, h, entries[..last]);
      NamedOneMore(h, entries, v);
      PollIsDescribed(PollEntries(volumes, gp, entries[..last]), gp, v, h + Named(entries[..last], v), entries[last]);
    } else {
      assert h + [] == h;
    }
  }

  lemma {:induction false} PolledKeys(volumes: map<string, Volume>, gp: Option<Path>, entries: seq<LvInfo>)
    ensures PollEntries(volumes, gp, entries).Keys == volumes.Keys
  {
    if entries != [] {
      PolledKeys(volumes, gp, entries[..|entries| - 1]);
    }
  }

  lemma {:induction false} AddedAreVisible(volumes: map<string, Volume>, gp: Option<Path>, entries: seq<LvInfo>)
    requires forall v :: v in volumes ==> IsVisible(v)
    ensures forall v :: v in AddEntries(volumes, gp, entries) ==> IsVisible(v)
  {
    if entries != [] {
      AddedAreVisible(volumes, gp, entries[..|entries| - 1]);
    }
  }

  lemma FullVolumes(volumes: map<string, Volume>, gp: Option<Path>, log: seq<Word>, r: VgInfo)
    requires VolumesKnow(volumes, log) && LastFull(log) != Some(r)
    ensures VolumesKnow(VolumesAfter(volumes, gp, r.lvs), log + [Full(r)])
  {
    var longer := log + [Full(r)];
    assert longer[..|log|] == log;
    AddedAreVisible(volumes, gp, r.lvs);
    forall v | IsVisible(v)
      ensures IsDescribed(VolumesAfter(volumes, gp, r.lvs), v, Entries(longer, v))
    {
      AddedIsDescribed(volumes, gp, v, Entries(log, v), r.lvs);
      NamedListed(r.lvs, v);
    }
  }

  lemma PartialVolumes(volumes: map<string, Volume>, gp: Option<Path>, log: seq<Word>, r: VgInfo)
    requires VolumesKnow(volumes, log)
    ensures VolumesKnow(PollEntries(volumes, gp, r.lvs), log + [Partial(r)])
  {
    var longer := log + [Partial(r)];
    assert longer[..|log|] == log;
    PolledKeys(volumes, gp, r.lvs);
    forall v | IsVisible(v)
      ensures IsDescribed(PollEntries(volumes, gp, r.lvs), v, Entries(longer, v))
    {
      if v in volumes { PolledIsDescribed(volumes, gp, v, Entries(log, v), r.lvs); }
    }
  }

  lemma RepeatedKnows(g: Group, log: seq<Word>, r: VgInfo)
    requires Knows(g, log) && g.info == Some(r)
    ensures VolumesKnow(g.volumes, log + [Full(r)])
  {
    assert (log + [Full(r)])[..|log|] == log;
    assert forall v :: Entries(log + [Full(r)], v) == Entries(log, v);
  }

  lemma LastIsFull(log: seq<Word>, r: VgInfo)
    ensures LastFull(log + [Full(r)]) == Some(r)
  {
  }

  lemma FullKnows(g: Group, log: seq<Word>, r: VgInfo)
    requires Knows(g, log)
    ensures Knows(Updated(g, Success(r)), log + [Full(r)])
  {
    GroupOneMore(g.props, log, Full(r));
    LastIsFull(log, r);
    if g.info == Some(r) {
      RepeatedKnows(g, log, r);
    } else {
      ChangedKnows(g, log, r);
    }
  }

  lemma ChangedKnows(g: Group, log: seq<Word>, r: VgInfo)
    requires VolumesKnow(g.volumes, log) && LastFull(log) != Some(r) && GroupIs(UpdateVgProps(g.props, r), log + [Full(r)])
    ensures Knows(FullPass(Received(g, r), r), log + [Full(r)])
  {
    LastIsFull(log, r);
    PollingMeans(r.lvs);
    FullVolumes(g.volumes, Received(g, r).path, log, r);
  }

  lemma PartialKnows(g: Group, log: seq<Word>, r: VgInfo)
    requires Knows(g, log)
    ensures Knows(Polled(g, r), log + [Partial(r)])
  {
    assert (log + [Partial(r)])[..|log|] == log;
    GroupOneMore(g.props, log, Partial(r));
    PartialVolumes(g.volumes, g.path, log, r);
    PolledKeys(g.volumes, g.path, r.lvs);
  }

  lemma NewKnows(n: string)
    ensures Knows(NewGroup(n), [])
  {
  }

  // --- The daemon's step ----------------------------------------------------------------------------

  predicate SameVolumes(a: map<string, Volume>, b: map<string, Volume>) {
    a.Keys == b.Keys && forall v :: v in a ==> a[v].props == b[v].props
  }

  // The same but for paths.
  predicate SameData(g: Group, h: Group) {
    g.info == h.info && g.props == h.props && g.needsPolling == h.needsPolling && g.pvs == h.pvs && SameVolumes(g.volumes, h.volumes)
  }

  lemma KnowsSame(g: Group, h: Group, log: seq<Word>)
    requires Knows(g, log) && SameData(g, h)
    ensures Knows(h, log)
  {
  }

  lemma VacateSame(live: map<string, Group>, p: Path, n: string)
    requires n in live
    ensures var r := VacateVolumes(live, p); r[n] == live[n].(volumes := r[n].volumes) && SameVolumes(r[n].volumes, live[n].volumes)
  {
  }

  lemma TakeEntrySame(live: map<string, Group>, n: string, e: LvInfo, plain: map<string, Volume>, gp: Option<Path>)
    requires n in live && live[n].path == gp && SameVolumes(live[n].volumes, plain)
    ensures var r := TakeEntry(live, n, e);
            n in r && r[n] == live[n].(volumes := r[n].volumes) && SameVolumes(r[n].volumes, WithEntry(plain, gp, e))
  {
    if IsVisible(e.name) {
      var before := if e.name in live[n].volumes then live[n].volumes[e.name] else NEW_VOLUME;
      var after := UpdateVolume(before, gp, e);
      var others := if before.needsPublish && after.path.Some? then VacateVolumes(live, after.path.value) else live;
      if after.path.Some? { VacateSame(live, after.path.value, n); }
      WithVolumeSame(others, n, e, after, plain, gp);
    }
  }

  lemma WithVolumeSame(live: map<string, Group>, n: string, e: LvInfo, after: Volume, plain: map<string, Volume>, gp: Option<Path>)
    requires n in live && IsVisible(e.name) && SameVolumes(live[n].volumes, plain)
    requires after.props == UpdateVolume(if e.name in plain then plain[e.name] else NEW_VOLUME, gp, e).props
    ensures var r := WithVolume(live, n, e.name, after);
            r[n] == live[n].(volumes := r[n].volumes) && SameVolumes(r[n].volumes, WithEntry(plain, gp, e))
  {
  }

  lemma {:induction false} TakeEntriesSame(live: map<string, Group>, n: string, entries: seq<LvInfo>)
    requires n in live
    ensures var r := TakeEntries(live, n, entries);
            && r[n] == live[n].(volumes := r[n].volumes)
            && SameVolumes(r[n].volumes, AddEntries(live[n].volumes, live[n].path, entries))
  {
    if entries != [] {
      var last := |entries| - 1;
      TakeEntriesSame(live, n, entries[..last]);
      TakeEntrySame(TakeEntries(live, n, entries[..last]), n, entries[last],
                    AddEntries(live[n].volumes, live[n].path, entries[..last]), live[n].path);
    }
  }

  lemma ReconcileSame(live: map<string, Group>, n: string, r: VgInfo)
    requires LooseShapes(live) && Unique(live) && n in live
    ensures var d := Reconcile(live, n, r);
            d.Keys == live.Keys && SameData(FullPass(live[n], r), d[n]) && forall m :: m in live && m != n ==> SameData(live[m], d[m])
  {
    TakeEntriesSame(live, n, r.lvs);
    TakeEntriesShape(live, n, r.lvs);
  }

  lemma PublishSame(live: map<string, Group>, n: string)
    requires n in live
    ensures forall m :: m in live ==> SameData(live[m], PublishGroup(live, n)[m])
  {
  }

  lemma ReceivedSame(w: World, n: string, reply: Reply)
    requires Inv(w) && n in w.live
    ensures var live := PublishGroup(SetProps(w.live, n, reply), n);
            && live.Keys == w.live.Keys && Shapes(live) && Unique(live) && live[n].path == Published(w.live[n]).path
            && SameData(if reply.Success? then Received(w.live[n], reply.value) else w.live[n], live[n])
            && forall m :: m in w.live && m != n ==> SameData(w.live[m], live[m])
  {
    assert GroupInv(n, w.live[n]);
    SetPropsKeepsInv(w.live, n, reply);
    PublishKeepsInv(SetProps(w.live, n, reply), n);
    PublishSame(SetProps(w.live, n, reply), n);
  }

  lemma FullPassSame(g: Group, h: Group, r: VgInfo)
    requires SameData(g, h)
    ensures SameData(FullPass(g, r), FullPass(h, r))
  {
    AddEntriesSame(g.volumes, g.path, h.volumes, h.path, r.lvs);
  }

  lemma {:induction false} AddEntriesSame(a: map<string, Volume>, p: Option<Path>, b: map<string, Volume>, q: Option<Path>, entries: seq<LvInfo>)
    requires SameVolumes(a, b)
    ensures SameVolumes(AddEntries(a, p, entries), AddEntries(b, q, entries))
  {
    if entries != [] {
      AddEntriesSame(a, p, b, q, entries[..|entries| - 1]);
    }
  }

  lemma ShowSameData(w: World, n: string, reply: Reply)
    requires Inv(w) && n in w.live
    ensures var live := ShowLive(w, n, reply).live;
            live.Keys == w.live.Keys && SameData(Updated(w.live[n], reply), live[n]) &&
            forall m :: m in w.live && m != n ==> SameData(w.live[m], live[m])
  {
    ReceivedSame(w, n, reply);
    if IsChange(w.live[n], reply) {
      var live1 := PublishGroup(SetProps(w.live, n, reply), n);
      LooseFromShapes(live1);
      ReconcileSame(live1, n, reply.value);
      FullPassSame(Received(w.live[n], reply.value), live1[n], reply.value);
    }
  }

  // Groups that were there show the same, and new ones nothing.
  ghost predicate SameOrNew(live: map<string, Group>, r: map<string, Group>) {
    forall m :: m in r ==> SameData(if m in live then live[m] else NewGroup(m), r[m])
  }

  lemma SameTwice(live: map<string, Group>, r: map<string, Group>, s: map<string, Group>)
    requires SameOrNew(live, r) && SameOrNew(r, s) && live.Keys <= r.Keys
    ensures SameOrNew(live, s)
  {
    forall m | m in s
      ensures SameData(if m in live then live[m] else NewGroup(m), s[m])
    {
    }
  }

  lemma EnsureOneSame(live: map<string, Group>, n: string, fails: bool)
    ensures var r := EnsureOne(live, n, fails); r.Keys == live.Keys + {n} && SameOrNew(live, r)
  {
    PublishSame(if n in live then live else live[n := NewGroup(n)], n);
  }

  lemma {:induction false} EnsureAllGrows(live: map<string, Group>, names: seq<string>, failed: set<nat>)
    ensures live.Keys <= EnsureAll(live, names, failed).Keys
  {
    if names != [] {
      EnsureAllGrows(live, names[..|names| - 1], failed);
    }
  }

  lemma NoneIsNew(live: map<string, Group>)
    ensures SameOrNew(live, live)
  {
  }

  lemma {:induction false} EnsureAllSame(live: map<string, Group>, names: seq<string>, failed: set<nat>)
    ensures SameOrNew(live, EnsureAll(live, names, failed))
  {
    if names == [] {
      NoneIsNew(live);
    } else {
      var last := |names| - 1;
      var before := EnsureAll(live, names[..last], failed);
      EnsureAllSame(live, names[..last], failed);
      EnsureAllGrows(live, names[..last], failed);
      EnsureOneSame(before, names[last], last in failed);
      SameTwice(live, before, EnsureOne(before, names[last], last in failed));
    }
  }

  // --- Over runs --------------------------------------------------------------------------------------

  ghost predicate IsTold(live: map<string, Group>, n: string, log: seq<Word>) {
    if n in live then Knows(live[n], log) else log == []
  }

  function LogAfter(log: seq<Word>, e: MirrorState.Event, n: string): seq<Word> {
    if e.List? && n !in e.names then [] else log + Says(e, n)
  }

  lemma ListTells(w: World, e: MirrorState.Event, n: string, log: seq<Word>)
    requires Inv(w) && Enabled(w, e) && e.List? && IsTold(w.live, n, log)
    ensures IsTold(Displacement.Step(w, e).live, n, LogAfter(log, e, n))
  {
    var live1 := RemoveAll(w, e.gone).live;
    EnsureAllSame(live1, e.names, e.failed);
    RemoveAllKeepsDead(w, e.gone);
    EnsureAllKeepsInv(live1, e.names, e.failed);
    assert log + [] == log;
    if n in e.names {
      NewKnows(n);
      KnowsSame(if n in live1 then live1[n] else NewGroup(n), EnsureAll(live1, e.names, e.failed)[n], log);
    }
  }

  lemma ShowTells(w: World, m: string, reply: Reply, n: string, log: seq<Word>)
    requires Inv(w) && m in w.live && IsTold(w.live, n, log)
    ensures IsTold(ShowLive(w, m, reply).live, n, LogAfter(log, Show(Live(m), reply), n))
  {
    ShowSameData(w, m, reply);
    assert log + [] == log;
    if n in w.live {
      if m == n && reply.Success? {
        FullKnows(w.live[n], log, reply.value);
        KnowsSame(Updated(w.live[n], reply), ShowLive(w, m, reply).live[n], log + [Full(reply.value)]);
      } else {
        KnowsSame(w.live[n], ShowLive(w, m, reply).live[n], log);
      }
    }
  }

  lemma PollTells(w: World, t: Target, r: VgInfo, n: string, log: seq<Word>)
    requires Known(w, t) && IsTold(w.live, n, log)
    ensures IsTold(Store(w, t, Polled(Find(w, t), r)).live, n, LogAfter(log, Poll(t, r), n))
  {
    assert log + [] == log;
    if t == Live(n) { PartialKnows(w.live[n], log, r); }
  }

  lemma StepTells(w: World, e: MirrorState.Event, n: string, log: seq<Word>)
    requires Inv(w) && Enabled(w, e) && IsTold(w.live, n, log)
    ensures IsTold(Displacement.Step(w, e).live, n, LogAfter(log, e, n))
  {
    assert log + [] == log;
    match e
    case Show(Live(m), reply) => ShowTells(w, m, reply, n, log);
    case Show(Dead(_), _) =>
    case Poll(t, r) => PollTells(w, t, r, n, log);
    case List(_, _, _) => ListTells(w, e, n, log);
    case BlockAdded(_, _, _) =>
    case BlockRemoved(_) =>
    case LastUnref(_) =>
  }

  /** In every run of the daemon, whatever names there are: all that a group shows is determined by
      the replies that came for it since it was listed, and told of them. */
  lemma {:induction false} ShownIsTold(states: seq<World>, events: seq<MirrorState.Event>, j: nat, n: string)
    requires Displacement.IsRun(states, events) && j < |states|
    ensures IsTold(states[j].live, n, Log(events[..j], n))
  {
    if j > 0 {
      ShownIsTold(states, events, j - 1, n);
      InvAlways(states, events, j - 1);
      StepTells(states[j - 1], events[j - 1], n, Log(events[..j - 1], n));
      assert events[..j][..j - 1] == events[..j - 1];
    }
  }

  /** Polling is wanted exactly if the last full reply, repeated or not, says so. */
  lemma PollingIsTold(states: seq<World>, events: seq<MirrorState.Event>, j: nat, n: string)
    requires Displacement.IsRun(states, events) && j < |states| && n in states[j].live
    ensures var r := LastFull(Log(events[..j], n));
            states[j].live[n].info == r && (states[j].live[n].needsPolling <==> r.Some? && WantsPolling(r.value.lvs))
  {
    ShownIsTold(states, events, j, n);
  }

  /** The volumes are those that the last full reply lists, hidden ones left out. */
  lemma VolumesAreTold(states: seq<World>, events: seq<MirrorState.Event>, j: nat, n: string)
    requires Displacement.IsRun(states, events) && j < |states| && n in states[j].live
    ensures var r := LastFull(Log(events[..j], n));
            forall v :: v in states[j].live[n].volumes <==>
                        r.Some? && exists i :: 0 <= i < |r.value.lvs| && r.value.lvs[i].name == v && !IsReserved(v)
  {
    ShownIsTold(states, events, j, n);
    InvAlways(states, events, j);
    assert GroupInv(n, states[j].live[n]);
  }

  /** A volume was described at least once. It is active exactly if the last entry that named it, in
      a full reply that was no repetition or in a poll, has an attribute string longer than six with
      'a' at position four, and a pool exactly if that has 't' at zero and six. Its uuid and its size
      are those that were last given. */
  lemma VolumeIsTold(states: seq<World>, events: seq<MirrorState.Event>, j: nat, n: string, v: string)
    requires Displacement.IsRun(states, events) && j < |states| && n in states[j].live && v in states[j].live[n].volumes
    ensures var p, h := states[j].live[n].volumes[v].props, Entries(Log(events[..j], n), v);
            && h != []
            && (p.active <==> SaysActive(h[|h| - 1]))
            && p.kind == (if SaysPool(h[|h| - 1]) then "pool" else "block")
            && IsGiven(p.uuid, Uuids(h), "") && IsGiven(p.size, Sizes(h), 0)
  {
    ShownIsTold(states, events, j, n);
  }

  /** A group's figures are those that were last given, in any full reply or poll. */
  lemma GroupIsTold(states: seq<World>, events: seq<MirrorState.Event>, j: nat, n: string)
    requires Displacement.IsRun(states, events) && j < |states| && n in states[j].live
    ensures GroupIs(states[j].live[n].props, Log(events[..j], n))
  {
    ShownIsTold(states, events, j, n);
  }

  // --- Some volumes -------------------------------------------------------------------------------------

  function OneEntry(name: string, attr: string): VgInfo {
    VgInfo(None, None, None, None, [LvInfo(name, None, None, Some(attr), None, None, "")], [], "")
  }

  lemma EntryPolls(g: Group, name: string, attr: string)
    ensures FullPass(g, OneEntry(name, attr)).needsPolling <==>
            "pvmove" <= name || (!IsReserved(name) && |attr| > 6 && attr[6] == 't')
  {
    PollingMeans(OneEntry(name, attr).lvs);
    var e := OneEntry(name, attr).lvs[0];
    assert e.name == name && e.attr == Some(attr);
  }

  /** A thin volume that is shown wants polling. */
  lemma ThinIsPolled(g: Group)
    ensures FullPass(g, OneEntry("thin1", "Vwi-a-tz--")).needsPolling
  {
    EntryPolls(g, "thin1", "Vwi-a-tz--");
    assert "thin1"[0..] == "thin1" && "thin1"[..5] == "thin1";
  }

  /** The hidden data volume of a pool does not. */
  lemma HiddenIsNotPolled(g: Group)
    ensures !FullPass(g, OneEntry("pool_tdata", "Twi-ao-t--")).needsPolling
  {
    EntryPolls(g, "pool_tdata", "Twi-ao-t--");
    assert "pool_tdata"[4..] == "_tdata" && "_tdata"[..6] == "_tdata";
    assert "pool_tdata"[1] == 'o';
  }

  /** Nor does an ordinary volume. */
  lemma OrdinaryIsNotPolled(g: Group)
    ensures !FullPass(g, OneEntry("home", "-wi-a-----")).needsPolling
  {
    EntryPolls(g, "home", "-wi-a-----");
    assert "home"[0] == 'h';
  }

  /** An ordinary active volume is active, and within one reply the last entry of a name wins. */
  lemma LastEntryWins(g: Group, v: string)
    requires g.volumes == map[] && IsVisible(v)
    ensures var r := OneEntry(v, "-wi-------").(lvs := OneEntry(v, "-wi-------").lvs + OneEntry(v, "-wi-a-----").lvs);
            var volumes := FullPass(g, r).volumes;
            v in volumes && volumes[v].props.active && volumes[v].props.kind == "block"
  {
    var r := OneEntry(v, "-wi-------").(lvs := OneEntry(v, "-wi-------").lvs + OneEntry(v, "-wi-a-----").lvs);
    AddedIsDescribed(g.volumes, g.path, v, [], r.lvs);
    NewVolumeIs();
    TwoNamed(r.lvs, v);
    assert [] + r.lvs == r.lvs;
    NamedListed(r.lvs, v);
  }

  lemma TwoNamed(lvs: seq<LvInfo>, v: string)
    requires |lvs| == 2 && lvs[0].name == v && lvs[1].name == v
    ensures Named(lvs, v) == lvs
  {
    assert lvs[..1][..0] == [];
    assert Named(lvs[..1], v) == [lvs[0]];
    assert lvs == [lvs[0]] + [lvs[1]];
  }
}
