/** Runs in which links go wrong: why `CompleteRuns` speaks of abandoned blocks, `SoundRuns` of
    events that mislead and `LvRuns` of events that unlink. */
module MirrorWitness {
  import opened Wrappers
  import opened LvmNames
  import opened MirrorState
  import opened MirrorRuns
  import opened MirrorLinks

  function OnePv(device: string): VgInfo {
    VgInfo(None, None, None, None, [], [PvInfo(Some(device), Some(1), Some(1), "")], "")
  }

  function Bare(device: string): Block {
    Block(device, [], None, None, None)
  }

  lemma OnePvTable(device: string)
    ensures PvTable(OnePv(device).pvs) == map[device := PvInfo(Some(device), Some(1), Some(1), "")]
    ensures VisibleNames(OnePv(device).lvs) == {}
  {
    assert OnePv(device).pvs[..0] == [];
  }

  lemma BareMatch(g: Group, b: Block, device: string)
    requires b.device == device && b.symlinks == [] && g.pvs == map[device := PvInfo(Some(device), Some(1), Some(1), "")]
    ensures Match(g.pvs, b) == Some(PvInfo(Some(device), Some(1), Some(1), ""))
  {
    assert ([device] + [])[0] == device;
  }

  lemma EmptyMatch(b: Block)
    requires b.symlinks == []
    ensures Match(map[], b).None?
  {
    var names := [b.device] + b.symlinks;
    assert names[1..] == [];
    assert FirstMatch(map[], names[1..]).None?;
  }

  // A described group, and the one block linked to it.
  lemma DescribeGroup(w: World, t: Target, p: Path, device: string)
    requires Known(w, t) && Find(w, t).info.None? && Find(w, t).volumes == map[]
    requires w.blocks.Keys == {p} && w.blocks[p].device == device && w.blocks[p].symlinks == [] && w.blocks[p].dm.None?
    ensures var w', g := Step(w, Show(t, Success(OnePv(device)))), Updated(Find(w, t), Success(OnePv(device)));
            && w' == Store(w, t, g).(blocks := w'.blocks) && w'.blocks.Keys == {p}
            && g.pvs == map[device := PvInfo(Some(device), Some(1), Some(1), "")] && g.info.Some? && g.volumes == map[]
            && w'.blocks[p].device == device && w'.blocks[p].symlinks == [] && w'.blocks[p].dm.None?
            && w'.blocks[p].pv.Some? && w'.blocks[p].pv.value.group == g.path
  {
    OnePvTable(device);
    var g := Updated(Find(w, t), Success(OnePv(device)));
    BareMatch(g, w.blocks[p], device);
  }

  lemma ListTwo(w: World, a: string, b: string)
    requires a != b && w.live == map[] && w.dead == []
    ensures Enabled(w, List([a, b], [], {}))
    ensures var w' := Step(w, List([a, b], [], {}));
            w'.live == map[a := NewGroup(a), b := NewGroup(b)] && w'.dead == [] && w'.blocks == w.blocks
  {
    assert [a, b][..1] == [a] && [a][..0] == [];
    assert AddGroups(map[], [], {}) == map[];
    assert AddGroups(map[], [a], {}) == map[a := NewGroup(a)];
  }

  lemma ListOneOfTwo(w: World, a: string, b: string)
    requires a != b && w.live.Keys == {a, b} && w.live[a].name == a && w.live[b].name == b
    ensures Enabled(w, List([a], [b], {}))
    ensures Step(w, List([a], [b], {})).live == w.live - {b}
    ensures Step(w, List([a], [b], {})).blocks == RelinkAll(w.blocks, Cleared(w.live[b]))
  {
    assert [b][..0] == [] && [a][..0] == [];
    assert RemoveAll(w, []) == w;
    var w1 := Remove(w, b);
    assert RemoveAll(w, [b]) == w1;
    assert AddGroups(w1.live, [], {}) == w1.live;
  }

  lemma Extend(states: seq<World>, events: seq<Event>, e: Event)
    requires IsRun(states, events) && Enabled(states[|events|], e)
    ensures IsRun(states + [Step(states[|events|], e)], events + [e])
  {
  }

  lemma Begin(p: Path, device: string)
    ensures Enabled(EMPTY, BlockAdded(p, Bare(device), []))
    ensures IsRun([EMPTY, World(map[], [], map[p := Bare(device)])], [BlockAdded(p, Bare(device), [])])
  {
    Extend([EMPTY], [], BlockAdded(p, Bare(device), []));
  }

  // Two groups, of which the first lists the device of a block.
  lemma OneClaim(p: Path, device: string, a: string, b: string) returns (states: seq<World>, events: seq<Event>)
    requires a != b
    ensures IsRun(states, events)
    ensures var w := states[|events|];
            && w.live.Keys == {a, b} && w.live[a].name == a && w.live[b] == NewGroup(b)
            && w.live[a].pvs == map[device := PvInfo(Some(device), Some(1), Some(1), "")]
            && w.blocks.Keys == {p} && w.blocks[p].device == device && w.blocks[p].symlinks == [] && w.blocks[p].dm.None?
  {
    Begin(p, device);
    var r := Success(OnePv(device));
    var w1 := World(map[], [], map[p := Bare(device)]);
    ListTwo(w1, a, b);
    var e, f := List([a, b], [], {}), Show(Live(a), r);
    Extend([EMPTY, w1], [BlockAdded(p, Bare(device), [])], e);
    var w2 := Step(w1, e);
    DescribeGroup(w2, Live(a), p, device);
    Extend([EMPTY, w1] + [w2], [BlockAdded(p, Bare(device), [])] + [e], f);
    states, events := [EMPTY, w1] + [w2] + [Step(w2, f)], [BlockAdded(p, Bare(device), [])] + [e] + [f];
  }

  // Both list it; they were described one after the other.
  lemma TwoClaims(p: Path, device: string, a: string, b: string) returns (states: seq<World>, events: seq<Event>)
    requires a != b
    ensures IsRun(states, events)
    ensures var w := states[|events|];
            && w.live.Keys == {a, b} && w.live[a].name == a && w.live[b].name == b
            && w.live[a].pvs == map[device := PvInfo(Some(device), Some(1), Some(1), "")]
            && w.blocks.Keys == {p} && w.blocks[p].device == device && w.blocks[p].symlinks == []
            && w.blocks[p].pv.Some? && w.blocks[p].pv.value.group == w.live[b].path
  {
    states, events := OneClaim(p, device, a, b);
    var w, e := states[|events|], Show(Live(b), Success(OnePv(device)));
    DescribeGroup(w, Live(b), p, device);
    Extend(states, events, e);
    states, events := states + [Step(w, e)], events + [e];
  }

  /** Two groups list one device. The block is linked to the one that was described last, and
      when that group goes the block is linked to none, though the other still lists it. */
  lemma BlockIsAbandoned(p: Path, device: string, a: string, b: string) returns (states: seq<World>, events: seq<Event>)
    requires a != b
    ensures IsRun(states, events)
    ensures var w := states[|events|];
            a in w.live && p in w.blocks && Claims(w.live[a], w.blocks[p]) && w.blocks[p].pv.None?
  {
    states, events := TwoClaims(p, device, a, b);
    var w := states[|events|];
    ListOneOfTwo(w, a, b);
    Extend(states, events, List([a], [b], {}));
    var w' := Step(w, List([a], [b], {}));
    states, events := states + [w'], events + [List([a], [b], {})];
    BareMatch(w.live[a], w.blocks[p], device);
    MatchIsClaim(w'.live[a], w'.blocks[p]);
    EmptyMatch(w.blocks[p]);
  }

  // A group is listed, and not described before it is disposed.
  lemma DisposedEarly(p: Path, b: Block, a: string) returns (states: seq<World>, events: seq<Event>)
    requires b.pv.None? && b.lv.None? && b.symlinks == []
    ensures IsRun(states, events)
    ensures states[|events|] == World(map[], [Disposed(NewGroup(a))], map[p := b])
  {
    var w1 := World(map[], [], map[p := b]);
    Extend([EMPTY], [], BlockAdded(p, b, []));
    states, events := [EMPTY] + [w1], [] + [BlockAdded(p, b, [])];
    ListOne(w1, a);
    Extend(states, events, List([a], [], {}));
    var w2 := Step(w1, List([a], [], {}));
    states, events := states + [w2], events + [List([a], [], {})];
    ListNone(w2, a, p, b);
    Extend(states, events, List([], [a], {}));
    states, events := states + [Step(w2, List([], [a], {}))], events + [List([], [a], {})];
  }

  lemma ListOne(w: World, a: string)
    requires w.live == map[]
    ensures Enabled(w, List([a], [], {}))
    ensures Step(w, List([a], [], {})) == w.(live := map[a := NewGroup(a)])
  {
    assert [a][..0] == [];
    assert AddGroups(map[], [], {}) == map[];
  }

  lemma ListNone(w: World, a: string, p: Path, b: Block)
    requires w == World(map[a := NewGroup(a)], [], map[p := b]) && b.pv.None? && b.lv.None? && b.symlinks == []
    ensures Enabled(w, List([], [a], {}))
    ensures Step(w, List([], [a], {})) == World(map[], [Disposed(NewGroup(a))], w.blocks)
  {
    assert [a][..0] == [];
    assert RemoveAll(w, []) == w;
    assert w.live - {a} == map[];
    EmptyMatch(b);
    assert RelinkAll(w.blocks, Cleared(NewGroup(a))) == w.blocks;
  }

  function OneLv(x: string): VgInfo {
    VgInfo(None, None, None, None, [LvInfo(x, None, None, None, None, None, "")], [], "")
  }

  /** A group is disposed while its description is on the way. When that arrives, the block it
      lists is linked to a group that is on no path. The description has a volume in it, which
      keeps the group, so nothing clears the link. */
  lemma LateDescription(p: Path, device: string, a: string, x: string) returns (states: seq<World>, events: seq<Event>)
    requires IsVisible(x)
    ensures IsRun(states, events)
    ensures var w := states[|events|];
            && w.live == map[] && p in w.blocks && w.blocks[p].pv.Some? && w.blocks[p].pv.value.group.None?
            && |w.dead| == 1 && !Enabled(w, LastUnref(0))
  {
    states, events := DisposedEarly(p, Bare(device), a);
    var r := OnePv(device).(lvs := OneLv(x).lvs);
    var w, e := states[|events|], Show(Dead(0), Success(r));
    OnePvTable(device);
    BareMatch(Updated(w.dead[0], Success(r)), Bare(device), device);
    assert x in VisibleNames(r.lvs) by { assert r.lvs[0].name == x; }
    Extend(states, events, e);
    states, events := states + [Step(w, e)], events + [e];
  }

  lemma OneVolume(g: Group, x: string)
    requires g.info.None? && g.volumes == map[] && IsVisible(x)
    ensures var h := Updated(g, Success(OneLv(x))); h.name == g.name && h.volumes.Keys == {x}
  {
    FullPassVolumes(Received(g, OneLv(x)), OneLv(x));
    var lvs := OneLv(x).lvs;
    assert VisibleNames(lvs) == {x} by { assert lvs[0].name == x; }
  }

  // The group is listed again, and its volume is linked to the block that names it.
  lemma ListedAgain(p: Path, b: Block, a: string, x: string) returns (states: seq<World>, events: seq<Event>)
    requires b.pv.None? && b.lv.None? && b.symlinks == [] && b.dm == Some(DmNames(a, x)) && IsVisible(x)
    ensures IsRun(states, events)
    ensures var w := states[|events|];
            && w.live.Keys == {a} && x in w.live[a].volumes && w.dead == [Disposed(NewGroup(a))]
            && w.blocks.Keys == {p} && w.blocks[p].dm == b.dm && w.blocks[p].lv == Some(w.live[a].volumes[x].path)
  {
    states, events := DisposedEarly(p, b, a);
    var w1, e := states[|events|], List([a], [], {});
    ListOne(w1, a);
    Extend(states, events, e);
    states, events := states + [Step(w1, e)], events + [e];
    var w2, f := states[|events|], Show(Live(a), Success(OneLv(x)));
    OneVolume(w2.live[a], x);
    Extend(states, events, f);
    states, events := states + [Step(w2, f)], events + [f];
  }

  /** Only then does the first description come back, as an error. With it goes the last reference
      to the group that was disposed, which takes the link to the other group's volume away. */
  lemma VolumeUnlinked(p: Path, b: Block, a: string, x: string) returns (states: seq<World>, events: seq<Event>)
    requires b.pv.None? && b.lv.None? && b.symlinks == [] && b.dm == Some(DmNames(a, x)) && IsVisible(x)
    ensures IsRun(states, events)
    ensures var w := states[|events|];
            p in w.blocks && w.blocks[p].dm == b.dm && DirectLv(w.live, w.blocks[p]).Some? && w.blocks[p].lv.None?
  {
    states, events := ListedAgain(p, b, a, x);
    var w1, e := states[|events|], Show(Dead(0), Failure(""));
    Extend(states, events, e);
    states, events := states + [Step(w1, e)], events + [e];
    var w2, f := states[|events|], LastUnref(0);
    assert w2.dead[0] == w1.dead[0] && w2.live == w1.live && w2.blocks == w1.blocks;
    Extend(states, events, f);
    states, events := states + [Step(w2, f)], events + [f];
    FreedBlock(w2, 0, p);
  }
}
