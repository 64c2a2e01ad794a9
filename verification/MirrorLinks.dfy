/** The links from block overlays to groups and volumes: what they say in every run, when
    they are complete, and when a reply may be skipped. */
module MirrorLinks {
  import opened Wrappers
  import opened MirrorState
  import opened MirrorRuns

  // --- What the links should say ------------------------------------------------------------

  /** The group lists the block's device, or one of its symlinks, as a physical volume. */
  ghost predicate Claims(g: Group, b: Block) {
    b.device in g.pvs || exists s :: s in b.symlinks && s in g.pvs
  }

  lemma {:induction false} FirstMatchFacts(pvs: map<string, PvInfo>, names: seq<string>)
    ensures FirstMatch(pvs, names).Some? <==> exists s :: s in names && s in pvs
  {
    if names != [] && names[0] !in pvs {
      FirstMatchFacts(pvs, names[1..]);
      assert forall s :: s in names <==> s == names[0] || s in names[1..];
    }
  }

  lemma MatchIsClaim(g: Group, b: Block)
    ensures Match(g.pvs, b).Some? <==> Claims(g, b)
  {
    var names := [b.device] + b.symlinks;
    FirstMatchFacts(g.pvs, names);
    assert forall s :: s in names <==> s == b.device || s in b.symlinks;
  }

  // The k-th of these names is the first that is listed.
  predicate IsFirstListed(pvs: map<string, PvInfo>, names: seq<string>, k: nat) {
    k < |names| && names[k] in pvs && forall m :: 0 <= m < k ==> names[m] !in pvs
  }

  /** The table has this description of a block: that of its device, or else that of the first of
      its symlinks which is listed. */
  ghost predicate Describes(pvs: map<string, PvInfo>, device: string, symlinks: seq<string>, i: PvInfo) {
    if device in pvs then i == pvs[device]
    else exists k: nat :: IsFirstListed(pvs, symlinks, k) && i == pvs[symlinks[k]]
  }

  lemma {:induction false} FirstMatchMeans(pvs: map<string, PvInfo>, names: seq<string>, i: PvInfo)
    ensures FirstMatch(pvs, names) == Some(i) <==> exists k: nat :: IsFirstListed(pvs, names, k) && i == pvs[names[k]]
  {
    if names != [] {
      FirstMatchMeans(pvs, names[1..], i);
      if names[0] in pvs {
        assert IsFirstListed(pvs, names, 0);
      } else {
        assert forall k: nat :: IsFirstListed(pvs, names[1..], k) ==> IsFirstListed(pvs, names, k + 1);
        assert forall k: nat :: IsFirstListed(pvs, names, k) ==> k > 0 && IsFirstListed(pvs, names[1..], k - 1);
      }
    }
  }

  lemma MatchMeans(pvs: map<string, PvInfo>, b: Block)
    ensures forall i :: Describes(pvs, b.device, b.symlinks, i) <==> Match(pvs, b) == Some(i)
  {
    var names := [b.device] + b.symlinks;
    assert names[1..] == b.symlinks;
    forall i
      ensures Describes(pvs, b.device, b.symlinks, i) <==> Match(pvs, b) == Some(i)
    {
      FirstMatchMeans(pvs, b.symlinks, i);
    }
  }

  // The figures of a link: those of the description, and what it lacks is what it was before.
  predicate HasFigures(l: PvLink, prev: Option<PvLink>, i: PvInfo) {
    && l.size == (if i.size.Some? then i.size.value else if prev.Some? then prev.value.size else 0)
    && l.freeSize == (if i.freeSize.Some? then i.freeSize.value else if prev.Some? then prev.value.freeSize else 0)
  }

  /** What a group makes of a block's physical volume link. A block that it lists is linked to it,
      with the figures listed for the device or else for the first listed symlink. From any other
      block it takes its own link away, and no other. */
  lemma RelinkMeans(b: Block, g: Group)
    ensures forall i :: Describes(g.pvs, b.device, b.symlinks, i) ==>
              var l := Relink(b, g).pv; l.Some? && l.value.group == g.path && HasFigures(l.value, b.pv, i)
    ensures b.device !in g.pvs && (forall s :: s in b.symlinks ==> s !in g.pvs) ==>
              Relink(b, g).pv == if b.pv.Some? && b.pv.value.group == g.path then None else b.pv
  {
    MatchMeans(g.pvs, b);
    MatchIsClaim(g, b);
  }

  // What is known of the physical volume is in the link.
  predicate IsCurrent(l: PvLink, i: PvInfo) {
    (i.size.Some? ==> l.size == i.size.value) && (i.freeSize.Some? ==> l.freeSize == i.freeSize.value)
  }

  /** The block's interface names group n, and with reason. */
  ghost predicate LinkedTo(live: map<string, Group>, b: Block, n: string) {
    && n in live
    && Claims(live[n], b)
    && b.pv.Some? && b.pv.value.group == live[n].path
    && (forall i :: Describes(live[n].pvs, b.device, b.symlinks, i) ==> IsCurrent(b.pv.value, i))
  }

  lemma LinkedToMeans(live: map<string, Group>, b: Block, n: string)
    ensures LinkedTo(live, b, n) <==>
            && n in live && Match(live[n].pvs, b).Some?
            && b.pv.Some? && b.pv.value.group == live[n].path && IsCurrent(b.pv.value, Match(live[n].pvs, b).value)
  {
    if n in live {
      MatchIsClaim(live[n], b);
      MatchMeans(live[n].pvs, b);
    }
  }

  ghost predicate Reasoned(live: map<string, Group>, b: Block) {
    b.pv.Some? ==> exists n :: LinkedTo(live, b, n)
  }

  ghost predicate Sound(w: World) {
    forall p :: p in w.blocks ==> Reasoned(w.live, w.blocks[p])
  }

  ghost predicate CompleteAt(w: World, b: Block) {
    b.pv.None? ==> forall n :: n in w.live ==> !Claims(w.live[n], b)
  }

  ghost predicate Complete(w: World) {
    forall p :: p in w.blocks ==> CompleteAt(w, w.blocks[p])
  }

  function DirectLv(live: map<string, Group>, b: Block): Option<Option<Path>> {
    if b.dm.Some? && b.dm.value.vg in live && b.dm.value.lv in live[b.dm.value.vg].volumes
    then Some(live[b.dm.value.vg].volumes[b.dm.value.lv].path) else None
  }

  ghost predicate LvExact(w: World) {
    forall p :: p in w.blocks ==> w.blocks[p].lv == DirectLv(w.live, w.blocks[p])
  }

  /** A description of a group that was disposed in the meantime lists the device of a block. */
  ghost predicate Misleads(w: World, e: Event)
    requires Enabled(w, e)
  {
    match e
    case Show(Dead(i), reply) =>
      IsChange(w.dead[i], reply) && exists p :: p in w.blocks && Match(PvTable(reply.value.pvs), w.blocks[p]).Some?
    case _ => false
  }

  // The udev names of the block are about a group of that name.
  predicate IsNamed(b: Block, n: string) {
    b.dm.Some? && b.dm.value.vg == n
  }

  // What a disposed group makes of the volume link: no volume of it is on the bus.
  function LateLink(r: VgInfo, lv: string): Option<Option<Path>> {
    if lv in VisibleNames(r.lvs) then Some(None) else None
  }

  /** A disposed group updates a block that is named like it, and the live group of that name, or
      that there is none, says otherwise. It does so when it is described, and when it is freed. */
  ghost predicate Unlinks(w: World, e: Event)
    requires Enabled(w, e)
  {
    match e
    case Show(Dead(i), reply) =>
      IsChange(w.dead[i], reply) &&
      exists p :: p in w.blocks && IsNamed(w.blocks[p], w.dead[i].name) &&
                  DirectLv(w.live, w.blocks[p]) != LateLink(reply.value, w.blocks[p].dm.value.lv)
    case LastUnref(i) =>
      exists p :: p in w.blocks && IsNamed(w.blocks[p], w.dead[i].name) && DirectLv(w.live, w.blocks[p]).Some?
    case _ => false
  }

  // --- What links depend on --------------------------------------------------------------

  // Groups may change as long as claims, paths and volumes stay, and groups without
  // claims may come and go.
  ghost predicate SameForLinks(live: map<string, Group>, live': map<string, Group>) {
    && (forall n :: n in live && n in live' ==>
          && live[n].pvs == live'[n].pvs
          && (live[n].pvs != map[] ==> live[n].path == live'[n].path)
          && live[n].volumes.Keys == live'[n].volumes.Keys
          && (forall m :: m in live[n].volumes ==> live[n].volumes[m].path == live'[n].volumes[m].path))
    && (forall n :: n in live && n !in live' ==> live[n].pvs == map[] && live[n].volumes == map[])
    && (forall n :: n in live' && n !in live ==> live'[n].pvs == map[] && live'[n].volumes == map[])
  }

  lemma FrameLinks(live: map<string, Group>, live': map<string, Group>, b: Block)
    requires SameForLinks(live, live')
    ensures DirectLv(live, b) == DirectLv(live', b)
    ensures forall n :: LinkedTo(live, b, n) <==> LinkedTo(live', b, n)
    ensures (forall n :: n in live ==> !Claims(live[n], b)) <==> (forall n :: n in live' ==> !Claims(live'[n], b))
  {
    forall n | LinkedTo(live, b, n) || LinkedTo(live', b, n)
      ensures LinkedTo(live, b, n) && LinkedTo(live', b, n)
    {
    }
    forall n | n in live && Claims(live[n], b)
      ensures n in live' && Claims(live'[n], b)
    {
    }
    forall n | n in live' && Claims(live'[n], b)
      ensures n in live && Claims(live[n], b)
    {
    }
  }

  lemma FrameAll(w: World, w': World)
    requires w.blocks == w'.blocks && SameForLinks(w.live, w'.live)
    ensures Sound(w) == Sound(w') && LvExact(w) == LvExact(w') && Complete(w) == Complete(w')
  {
    forall p | p in w.blocks
      ensures Reasoned(w.live, w.blocks[p]) == Reasoned(w'.live, w.blocks[p])
      ensures CompleteAt(w, w.blocks[p]) == CompleteAt(w', w.blocks[p])
      ensures DirectLv(w.live, w.blocks[p]) == DirectLv(w'.live, w.blocks[p])
    {
      FrameLinks(w.live, w'.live, w.blocks[p]);
    }
  }

  // --- One group updates one block ----------------------------------------------------------

  lemma RelinkLv(live: map<string, Group>, n: string, g: Group, b: Block)
    requires g.name == n
    requires b.lv == DirectLv(live, b)
    ensures Relink(b, g).lv == DirectLv(live[n := g], b)
  {
  }

  lemma RelinkSound(live: map<string, Group>, n: string, g: Group, b: Block)
    requires Reasoned(live, b)
    requires n in live ==> live[n].path == g.path || live[n].pvs == map[]
    ensures Reasoned(live[n := g], Relink(b, g))
  {
    var b', live' := Relink(b, g), live[n := g];
    MatchIsClaim(g, b);
    MatchMeans(g.pvs, b);
    if Match(g.pvs, b).Some? {
      assert LinkedTo(live', b', n);
    } else if b'.pv.Some? {
      var m :| LinkedTo(live, b, m);
      assert m != n;
      assert LinkedTo(live', b', m);
    }
  }

  lemma ShownLivePv(w: World, n: string, reply: Reply)
    requires Inv(w) && Sound(w) && n in w.live && IsChange(w.live[n], reply)
    ensures Sound(Shown(w, Live(n), reply))
  {
    assert LiveInv(n, w.live[n]);
    var w', g := Shown(w, Live(n), reply), Updated(w.live[n], reply);
    forall p | p in w'.blocks
      ensures Reasoned(w'.live, w'.blocks[p])
    {
      RelinkSound(w.live, n, g, w.blocks[p]);
    }
  }

  lemma ShownLiveLv(w: World, n: string, reply: Reply)
    requires Inv(w) && LvExact(w) && n in w.live && IsChange(w.live[n], reply)
    ensures LvExact(Shown(w, Live(n), reply))
  {
    assert LiveInv(n, w.live[n]);
    var w', g := Shown(w, Live(n), reply), Updated(w.live[n], reply);
    forall p | p in w'.blocks
      ensures w'.blocks[p].lv == DirectLv(w'.live, w'.blocks[p])
    {
      RelinkLv(w.live, n, g, w.blocks[p]);
    }
  }

  // A reply that changes nothing, or an error, is invisible to the links.
  lemma QuietUpdate(w: World, t: Target, reply: Reply)
    requires Inv(w) && Known(w, t) && !IsChange(Find(w, t), reply)
    ensures SameForLinks(w.live, Shown(w, t, reply).live)
  {
  }

  lemma PollIsQuiet(w: World, t: Target, r: VgInfo)
    requires Inv(w) && Known(w, t)
    ensures SameForLinks(w.live, Store(w, t, Polled(Find(w, t), r)).live)
  {
    var g := Find(w, t);
    PollEntriesFacts(g.volumes, g.path, r.lvs);
  }

  // --- Groups are removed -------------------------------------------------------------------

  lemma RelinkCleared(b: Block, g: Group)
    ensures var b' := Relink(b, Cleared(g));
            && b'.pv == (if b.pv.Some? && b.pv.value.group == g.path then None else b.pv)
            && b'.lv == (if b.dm.Some? && b.dm.value.vg == g.name then None else b.lv)
  {
    MatchIsClaim(Cleared(g), b);
  }

  lemma RemoveKeepsReason(live: map<string, Group>, n: string, b: Block)
    requires n in live && Reasoned(live, b)
    ensures Reasoned(live - {n}, Relink(b, Cleared(live[n])))
  {
    RelinkCleared(b, live[n]);
    var b' := Relink(b, Cleared(live[n]));
    if b'.pv.Some? {
      var m :| LinkedTo(live, b, m);
      assert LinkedTo(live - {n}, b', m);
    }
  }

  lemma RemoveKeepsPv(w: World, n: string)
    requires Sound(w) && n in w.live
    ensures Sound(Remove(w, n))
  {
    forall p | p in w.blocks
      ensures Reasoned(w.live - {n}, Relink(w.blocks[p], Cleared(w.live[n])))
    {
      RemoveKeepsReason(w.live, n, w.blocks[p]);
    }
  }

  lemma RemoveKeepsLv(w: World, n: string)
    requires LvExact(w) && n in w.live && w.live[n].name == n
    ensures LvExact(Remove(w, n))
  {
    forall p | p in w.blocks
      ensures Relink(w.blocks[p], Cleared(w.live[n])).lv == DirectLv(w.live - {n}, w.blocks[p])
    {
      RelinkCleared(w.blocks[p], w.live[n]);
    }
  }

  lemma {:induction false} RemoveAllKeepsPv(w: World, gone: seq<string>)
    requires Sound(w) && NoRepeats(gone) && forall n :: n in gone ==> n in w.live
    ensures Sound(RemoveAll(w, gone))
  {
    if gone != [] {
      var last := |gone| - 1;
      assert forall n :: n in gone[..last] ==> n in gone;
      RemoveAllKeepsPv(w, gone[..last]);
      assert gone[last] !in gone[..last] && gone[last] in gone;
      RemoveKeepsPv(RemoveAll(w, gone[..last]), gone[last]);
    }
  }

  lemma {:induction false} RemoveAllKeepsLv(w: World, gone: seq<string>)
    requires LvExact(w) && NoRepeats(gone) && forall n :: n in gone ==> n in w.live
    requires forall n :: n in w.live ==> w.live[n].name == n
    ensures LvExact(RemoveAll(w, gone))
  {
    if gone != [] {
      var last := |gone| - 1;
      assert forall n :: n in gone[..last] ==> n in gone;
      RemoveAllKeepsLv(w, gone[..last]);
      assert gone[last] !in gone[..last] && gone[last] in gone;
      RemoveKeepsLv(RemoveAll(w, gone[..last]), gone[last]);
    }
  }

  lemma AddGroupsIsQuiet(w: World, names: seq<string>, failed: set<nat>)
    requires Inv(w)
    ensures SameForLinks(w.live, AddGroups(w.live, names, failed))
  {
    AddGroupsFacts(w.live, names, failed);
    var all := AddGroups(w.live, names, failed);
    forall n | n in w.live
      ensures all[n] == w.live[n] || (w.live[n].needPublish && all[n] == Published(w.live[n]))
      ensures w.live[n].needPublish ==> w.live[n].pvs == map[] && w.live[n].volumes == map[]
    {
      assert all[n] == Listing(w.live, n, n in FailedNames(names, failed));
      assert LiveInv(n, w.live[n]);
    }
    forall n | n in all && n !in w.live
      ensures all[n].pvs == map[] && all[n].volumes == map[]
    {
      assert all[n] == Listing(w.live, n, n in FailedNames(names, failed));
    }
  }

  lemma ListedKeepsLinks(w: World, names: seq<string>, gone: seq<string>, failed: set<nat>)
    requires Inv(w) && Enabled(w, List(names, gone, failed))
    ensures Sound(w) ==> Sound(Listed(w, names, gone, failed))
    ensures LvExact(w) ==> LvExact(Listed(w, names, gone, failed))
  {
    assert forall n :: n in w.live ==> LiveInv(n, w.live[n]);
    if Sound(w) { RemoveAllKeepsPv(w, gone); }
    if LvExact(w) { RemoveAllKeepsLv(w, gone); }
    var w1 := RemoveAll(w, gone);
    RemoveAllKeepsInv(w, gone);
    AddGroupsIsQuiet(w1, names, failed);
    FrameAll(w1, Listed(w, names, gone, failed));
  }

  // --- A block is added ---------------------------------------------------------------------

  lemma {:induction false} RelinkFromFresh(live: map<string, Group>, b: Block, order: seq<string>)
    requires b.pv.None? && b.lv.None?
    requires forall n :: n in live ==> live[n].name == n
    requires forall n :: n in order ==> n in live
    ensures var b' := RelinkFrom(b, live, order);
            && b' == b.(pv := b'.pv, lv := b'.lv)
            && b'.lv == (if b.dm.Some? && b.dm.value.vg in order then DirectLv(live, b) else None)
            && Reasoned(live, b')
  {
    if order != [] {
      var last := |order| - 1;
      assert forall n :: n in order[..last] ==> n in order;
      assert order == order[..last] + [order[last]];
      RelinkFromFresh(live, b, order[..last]);
      var b1 := RelinkFrom(b, live, order[..last]);
      var n := order[last];
      assert live[n := live[n]] == live;
      RelinkSound(live, n, live[n], b1);
    }
  }

  // A link is only ever lost to a group with the path it names.
  lemma {:induction false} RelinkFromComplete(live: map<string, Group>, b: Block, order: seq<string>)
    requires b.pv.None? && b.lv.None?
    requires DistinctPaths(live)
    requires forall n :: n in live ==> live[n].name == n
    requires forall n :: n in order ==> n in live
    ensures RelinkFrom(b, live, order).pv.None? ==> forall n :: n in order ==> !Claims(live[n], b)
  {
    if order != [] {
      var last := |order| - 1;
      assert forall n :: n in order[..last] ==> n in order;
      assert order == order[..last] + [order[last]];
      RelinkFromComplete(live, b, order[..last]);
      RelinkFromFresh(live, b, order[..last]);
      var b1 := RelinkFrom(b, live, order[..last]);
      KeepsOthersLink(live, b1, order[last]);
    }
  }

  lemma KeepsOthersLink(live: map<string, Group>, b: Block, n: string)
    requires DistinctPaths(live) && Reasoned(live, b) && n in live
    ensures Relink(b, live[n]).pv.None? ==> b.pv.None? && !Claims(live[n], b)
  {
    MatchIsClaim(live[n], b);
    if b.pv.Some? && !Claims(live[n], b) {
      var m :| LinkedTo(live, b, m);
      assert live[m].path != live[n].path;
    }
  }

  // Groups on the bus are told apart by their paths.
  ghost predicate DistinctPaths(live: map<string, Group>) {
    forall m, n :: m in live && n in live && live[m].path == live[n].path && live[m].pvs != map[] ==> m == n
  }

  lemma BlockAddedKeepsLinks(w: World, p: Path, b: Block, order: seq<string>)
    requires Inv(w) && Enabled(w, BlockAdded(p, b, order))
    ensures Sound(w) ==> Sound(Step(w, BlockAdded(p, b, order)))
    ensures LvExact(w) ==> LvExact(Step(w, BlockAdded(p, b, order)))
  {
    assert forall n :: n in w.live ==> LiveInv(n, w.live[n]);
    RelinkFromFresh(w.live, b, order);
  }

  lemma NewBlockComplete(w: World, b: Block, order: seq<string>)
    requires Inv(w) && b.pv.None? && b.lv.None? && Enumerates(order, w.live.Keys) && DistinctPaths(w.live)
    ensures CompleteAt(w, RelinkFrom(b, w.live, order))
  {
    assert forall n :: n in w.live ==> LiveInv(n, w.live[n]);
    RelinkFromFresh(w.live, b, order);
    RelinkFromComplete(w.live, b, order);
    var b' := RelinkFrom(b, w.live, order);
    forall n | n in w.live && b'.pv.None?
      ensures !Claims(w.live[n], b')
    {
      assert n in order;
    }
  }

  lemma BlockAddedComplete(w: World, p: Path, b: Block, order: seq<string>)
    requires Inv(w) && Enabled(w, BlockAdded(p, b, order)) && DistinctPaths(w.live) && Complete(w)
    ensures Complete(Step(w, BlockAdded(p, b, order)))
  {
    NewBlockComplete(w, b, order);
    OneMoreBlock(w, p, RelinkFrom(b, w.live, order));
  }

  lemma OneMoreBlock(w: World, p: Path, b: Block)
    requires Complete(w) && CompleteAt(w, b)
    ensures Complete(w.(blocks := w.blocks[p := b]))
  {
  }

  // --- Disposed groups update blocks -----------------------------------------------------------

  // Live groups that list anything are on the bus.
  lemma ReasonedIsOnBus(w: World, b: Block)
    requires Inv(w) && Reasoned(w.live, b)
    ensures b.pv.Some? ==> b.pv.value.group.Some?
  {
    if b.pv.Some? {
      var n :| LinkedTo(w.live, b, n);
      assert LiveInv(n, w.live[n]);
    }
  }

  lemma LatePv(w: World, g: Group, b: Block)
    requires Inv(w) && g.path.None? && Reasoned(w.live, b)
    ensures Reasoned(w.live, Relink(b, g)) <==> Match(g.pvs, b).None?
    ensures Match(g.pvs, b).None? ==> Relink(b, g).pv == b.pv
    ensures Match(g.pvs, b).Some? ==> Relink(b, g).pv.Some? && Relink(b, g).pv.value.group.None?
  {
    var b' := Relink(b, g);
    ReasonedIsOnBus(w, b);
    if Match(g.pvs, b).None? {
      if b.pv.Some? {
        var m :| LinkedTo(w.live, b, m);
        assert LinkedTo(w.live, b', m);
      }
    } else if Reasoned(w.live, b') {
      ReasonedIsOnBus(w, b');
    }
  }

  lemma LateLv(live: map<string, Group>, g: Group, b: Block)
    requires b.lv == DirectLv(live, b) && forall v :: v in g.volumes ==> g.volumes[v].path.None?
    ensures Relink(b, g).lv == DirectLv(live, b) <==>
            !(IsNamed(b, g.name) && DirectLv(live, b) != if b.dm.value.lv in g.volumes then Some(None) else None)
  {
  }

  lemma LateGroup(g: Group, reply: Reply)
    requires DeadInv(g) && IsChange(g, reply)
    ensures var h := Updated(g, reply);
            && h.path.None? && h.name == g.name && h.pvs == PvTable(reply.value.pvs)
            && h.volumes.Keys == VisibleNames(reply.value.lvs) && forall v :: v in h.volumes ==> h.volumes[v].path.None?
  {
    UpdatedKeepsShape(g, reply);
    FullPassVolumes(Received(g, reply.value), reply.value);
  }

  // Only blocks and the group itself change.
  lemma LateWorld(w: World, i: nat, reply: Reply)
    requires Enabled(w, Show(Dead(i), reply)) && IsChange(w.dead[i], reply)
    ensures var w' := Step(w, Show(Dead(i), reply));
            w'.live == w.live && w'.blocks == RelinkAll(w.blocks, Updated(w.dead[i], reply))
  {
  }

  lemma LateShownPv(w: World, i: nat, reply: Reply)
    requires Inv(w) && Sound(w) && Enabled(w, Show(Dead(i), reply)) && IsChange(w.dead[i], reply)
    ensures Sound(Step(w, Show(Dead(i), reply))) <==> !Misleads(w, Show(Dead(i), reply))
  {
    assert DeadInv(w.dead[i]);
    LateGroup(w.dead[i], reply);
    LateWorld(w, i, reply);
    var g, blocks' := Updated(w.dead[i], reply), Step(w, Show(Dead(i), reply)).blocks;
    forall p | p in w.blocks
      ensures Reasoned(w.live, blocks'[p]) <==> Match(PvTable(reply.value.pvs), w.blocks[p]).None?
    {
      LatePv(w, g, w.blocks[p]);
    }
  }

  lemma LateShownLv(w: World, i: nat, reply: Reply)
    requires LvExact(w) && Enabled(w, Show(Dead(i), reply)) && IsChange(w.dead[i], reply) && DeadInv(w.dead[i])
    ensures LvExact(Step(w, Show(Dead(i), reply))) <==> !Unlinks(w, Show(Dead(i), reply))
  {
    LateGroup(w.dead[i], reply);
    LateWorld(w, i, reply);
    var g, blocks' := Updated(w.dead[i], reply), Step(w, Show(Dead(i), reply)).blocks;
    forall p | p in w.blocks
      ensures blocks'[p].lv == DirectLv(w.live, blocks'[p]) <==>
              !(IsNamed(w.blocks[p], w.dead[i].name) &&
                DirectLv(w.live, w.blocks[p]) != LateLink(reply.value, w.blocks[p].dm.value.lv))
    {
      LateLv(w.live, g, w.blocks[p]);
    }
  }

  /** What freeing a group makes of a block: a link to no path goes, and so does the volume link
      of a block that is named like the group. */
  lemma FreedBlock(w: World, i: nat, p: Path)
    requires i < |w.dead| && p in w.blocks
    ensures var b := w.blocks[p];
            p in Freed(w, i).blocks &&
            Freed(w, i).blocks[p] ==
              b.(pv := if b.pv.Some? && b.pv.value.group.None? then None else b.pv,
                 lv := if IsNamed(b, w.dead[i].name) then None else b.lv)
  {
    RelinkCleared(w.blocks[p], Disposed(w.dead[i]));
  }

  lemma FreedPv(w: World, i: nat)
    requires i < |w.dead|
    requires forall p :: p in w.blocks && w.blocks[p].pv.Some? && w.blocks[p].pv.value.group.Some? ==>
               Reasoned(w.live, w.blocks[p])
    ensures Sound(Freed(w, i))
  {
    forall p | p in w.blocks
      ensures Reasoned(w.live, Freed(w, i).blocks[p])
    {
      FreedBlock(w, i, p);
      var b, b' := w.blocks[p], Freed(w, i).blocks[p];
      if b'.pv.Some? {
        var n :| LinkedTo(w.live, b, n);
        assert LinkedTo(w.live, b', n);
      }
    }
  }

  lemma FreedSound(w: World, i: nat)
    requires Inv(w) && Sound(w) && i < |w.dead|
    ensures Sound(Freed(w, i))
    ensures forall p :: p in w.blocks ==> Freed(w, i).blocks[p].pv == w.blocks[p].pv
  {
    FreedPv(w, i);
    forall p | p in w.blocks
      ensures Freed(w, i).blocks[p].pv == w.blocks[p].pv
    {
      FreedBlock(w, i, p);
      ReasonedIsOnBus(w, w.blocks[p]);
    }
  }

  lemma FreedLv(w: World, i: nat)
    requires LvExact(w) && Enabled(w, LastUnref(i))
    ensures LvExact(Freed(w, i)) <==> !Unlinks(w, LastUnref(i))
  {
    forall p | p in w.blocks
      ensures Freed(w, i).blocks[p].lv == DirectLv(w.live, Freed(w, i).blocks[p]) <==>
              !(IsNamed(w.blocks[p], w.dead[i].name) && DirectLv(w.live, w.blocks[p]).Some?)
    {
      FreedBlock(w, i, p);
    }
  }

  /** A last reference may also go while a list reply removes groups. It makes no difference to
      blocks whether that is before the next group is removed or after. */
  lemma FreeingCommutes(blocks: map<Path, Block>, g: Group, h: Group)
    ensures RelinkAll(RelinkAll(blocks, Disposed(g)), Cleared(h)) == RelinkAll(RelinkAll(blocks, Cleared(h)), Disposed(g))
  {
    forall p | p in blocks
      ensures Relink(Relink(blocks[p], Disposed(g)), Cleared(h)) == Relink(Relink(blocks[p], Cleared(h)), Disposed(g))
    {
      RelinkCleared(blocks[p], Disposed(g));
      RelinkCleared(Relink(blocks[p], Disposed(g)), h);
      RelinkCleared(blocks[p], h);
      RelinkCleared(Relink(blocks[p], Cleared(h)), Disposed(g));
    }
  }

  // --- Links over runs ------------------------------------------------------------------------

  lemma QuietStep(w: World, e: Event)
    requires Inv(w) && Enabled(w, e) && (e.Poll? || (e.Show? && !IsChange(Find(w, e.target), e.reply)))
    ensures Sound(Step(w, e)) == Sound(w) && LvExact(Step(w, e)) == LvExact(w) && Complete(Step(w, e)) == Complete(w)
  {
    if e.Poll? {
      PollIsQuiet(w, e.target, e.info);
    } else {
      QuietUpdate(w, e.target, e.reply);
    }
    FrameAll(w, Step(w, e));
  }

  /** The physical volume links stay sound exactly if the event does not mislead: then a block's
      interface names a group only if that group lists the block now, and says what it says. */
  lemma SoundStep(w: World, e: Event)
    requires Inv(w) && Sound(w) && Enabled(w, e)
    ensures Sound(Step(w, e)) <==> !Misleads(w, e)
  {
    match e
    case Show(t, reply) =>
      if !IsChange(Find(w, t), reply) {
        QuietStep(w, e);
      } else if t.Live? {
        ShownLivePv(w, t.name, reply);
      } else {
        LateShownPv(w, t.index, reply);
      }
    case Poll(_, _) => QuietStep(w, e);
    case List(names, gone, failed) => ListedKeepsLinks(w, names, gone, failed);
    case BlockAdded(p, b, order) => BlockAddedKeepsLinks(w, p, b, order);
    case BlockRemoved(_) =>
    case LastUnref(i) => FreedSound(w, i);
  }

  /** The volume links stay exactly what the tables say, exactly if the event does not unlink. */
  lemma LvStep(w: World, e: Event)
    requires Inv(w) && LvExact(w) && Enabled(w, e)
    ensures LvExact(Step(w, e)) <==> !Unlinks(w, e)
  {
    match e
    case Show(t, reply) =>
      if !IsChange(Find(w, t), reply) {
        QuietStep(w, e);
      } else if t.Live? {
        ShownLiveLv(w, t.name, reply);
      } else {
        LateShownLv(w, t.index, reply);
      }
    case Poll(_, _) => QuietStep(w, e);
    case List(names, gone, failed) => ListedKeepsLinks(w, names, gone, failed);
    case BlockAdded(p, b, order) => BlockAddedKeepsLinks(w, p, b, order);
    case BlockRemoved(_) =>
    case LastUnref(i) => FreedLv(w, i);
  }

  ghost predicate NeverMisleads(states: seq<World>, events: seq<Event>, k: nat)
    requires IsRun(states, events) && k <= |events|
  {
    forall i :: 0 <= i < k ==> !Misleads(states[i], events[i])
  }

  ghost predicate NeverUnlinks(states: seq<World>, events: seq<Event>, k: nat)
    requires IsRun(states, events) && k <= |events|
  {
    forall i :: 0 <= i < k ==> !Unlinks(states[i], events[i])
  }

  ghost predicate AlwaysSound(states: seq<World>, k: nat)
    requires k < |states|
  {
    forall i :: 0 <= i <= k ==> Sound(states[i])
  }

  ghost predicate AlwaysLvExact(states: seq<World>, k: nat)
    requires k < |states|
  {
    forall i :: 0 <= i <= k ==> LvExact(states[i])
  }

  // What holds at first and is lost exactly where something breaks it holds until something does.
  lemma {:induction false} UntilFirst(holds: seq<bool>, breaks: seq<bool>)
    requires |holds| == |breaks| + 1 && holds[0]
    requires forall i :: 0 <= i < |breaks| && holds[i] ==> (holds[i + 1] <==> !breaks[i])
    ensures (forall i :: 0 <= i < |holds| ==> holds[i]) <==> (forall i :: 0 <= i < |breaks| ==> !breaks[i])
  {
    if breaks != [] {
      var last := |breaks| - 1;
      var before, none := holds[..last + 1], breaks[..last];
      UntilFirst(before, none);
      assert forall i :: 0 <= i < |before| ==> before[i] == holds[i];
      assert forall i :: 0 <= i < |none| ==> none[i] == breaks[i];
      assert (forall i :: 0 <= i < |holds| ==> holds[i]) <==> (forall i :: 0 <= i < |before| ==> before[i]) && holds[last + 1];
      assert (forall i :: 0 <= i < |breaks| ==> !breaks[i]) <==> (forall i :: 0 <= i < |none| ==> !none[i]) && !breaks[last];
    }
  }

  lemma SoundHere(states: seq<World>, events: seq<Event>, k: nat)
    requires IsRun(states, events) && k < |events|
    ensures Sound(states[k]) ==> (Sound(states[k + 1]) <==> !Misleads(states[k], events[k]))
  {
    InvAlways(states, events, k);
    if Sound(states[k]) { SoundStep(states[k], events[k]); }
  }

  lemma LvHere(states: seq<World>, events: seq<Event>, k: nat)
    requires IsRun(states, events) && k < |events|
    ensures LvExact(states[k]) ==> (LvExact(states[k + 1]) <==> !Unlinks(states[k], events[k]))
  {
    InvAlways(states, events, k);
    if LvExact(states[k]) { LvStep(states[k], events[k]); }
  }

  /** Over runs: the links are sound in every state up to the k-th exactly if none of the first k
      events misleads. */
  lemma SoundRuns(states: seq<World>, events: seq<Event>, k: nat)
    requires IsRun(states, events) && k <= |events|
    ensures AlwaysSound(states, k) <==> NeverMisleads(states, events, k)
  {
    forall i | 0 <= i < k
      ensures Sound(states[i]) ==> (Sound(states[i + 1]) <==> !Misleads(states[i], events[i]))
    {
      SoundHere(states, events, i);
    }
    assert Sound(states[0]);
    var holds := seq(k + 1, i requires 0 <= i <= k => Sound(states[i]));
    var breaks := seq(k, i requires 0 <= i < k => Misleads(states[i], events[i]));
    UntilFirst(holds, breaks);
    assert forall i :: 0 <= i <= k ==> holds[i] == Sound(states[i]);
    assert forall i :: 0 <= i < k ==> breaks[i] == Misleads(states[i], events[i]);
  }

  /** And the volume links are exact up to then exactly if none of them unlinks. */
  lemma LvRuns(states: seq<World>, events: seq<Event>, k: nat)
    requires IsRun(states, events) && k <= |events|
    ensures AlwaysLvExact(states, k) <==> NeverUnlinks(states, events, k)
  {
    forall i | 0 <= i < k
      ensures LvExact(states[i]) ==> (LvExact(states[i + 1]) <==> !Unlinks(states[i], events[i]))
    {
      LvHere(states, events, i);
    }
    assert LvExact(states[0]);
    var holds := seq(k + 1, i requires 0 <= i <= k => LvExact(states[i]));
    var breaks := seq(k, i requires 0 <= i < k => Unlinks(states[i], events[i]));
    UntilFirst(holds, breaks);
    assert forall i :: 0 <= i <= k ==> holds[i] == LvExact(states[i]);
    assert forall i :: 0 <= i < k ==> breaks[i] == Unlinks(states[i], events[i]);
  }
}
