/** What the mirror's shortcuts, iteration orders and late replies amount to. */
module MirrorShortcuts {
  import opened Wrappers
  import opened LvmNames
  import opened MirrorState
  import opened MirrorRuns
  import opened MirrorLinks
  import opened MirrorTheorems

  // --- Skipping a reply that repeats the last one ---------------------------------------------

  lemma SkippedTables(g: Group, r: VgInfo)
    requires LiveInv(g.name, g) && g.info == Some(r)
    ensures var full := FullPass(Received(g, r), r);
            && full.pvs == g.pvs && full.path == g.path
            && full.needsPolling == g.needsPolling && full.info == g.info
            && full.volumes.Keys == g.volumes.Keys
            && forall n :: n in g.volumes ==> full.volumes[n].path == g.volumes[n].path
  {
    FullPassVolumes(Received(g, r), r);
  }

  // What group n lists of the block is in its links.
  ghost predicate IsSettled(live: map<string, Group>, n: string, b: Block)
    requires n in live
  {
    && (Claims(live[n], b) ==> b.pv.Some? && b.pv.value.group == live[n].path)
    && (IsNamed(b, n) ==> b.lv == DirectLv(live, b))
  }

  lemma SkippedBlock(w: World, n: string, r: VgInfo, b: Block)
    requires Inv(w) && DistinctPaths(w.live) && n in w.live && w.live[n].info == Some(r)
    requires Reasoned(w.live, b)
    ensures Relink(b, FullPass(Received(w.live[n], r), r)) == b <==> IsSettled(w.live, n, b)
  {
    var g := w.live[n];
    var full := FullPass(Received(g, r), r);
    assert LiveInv(n, g);
    SkippedTables(g, r);
    MatchIsClaim(g, b);
    if b.pv.Some? && b.pv.value.group == g.path {
      var m :| LinkedTo(w.live, b, m);
      assert m == n;
      LinkedToMeans(w.live, b, n);
    }
  }

  /** Skipping a reply that equals the cached one leaves the tables, the paths and the polling
      flag as the full pass would. It leaves the block links as the full pass would exactly if
      every block that the group lists is linked to it, and the volume link of every block that
      is named like it is what its table says. Only scalar volume properties, which polls move
      on their own, are outside this. */
  lemma SkippingIsSound(w: World, n: string, r: VgInfo)
    requires Inv(w) && Sound(w) && DistinctNames(w) && n in w.live && w.live[n].info == Some(r)
    ensures var g, full := w.live[n], FullPass(Received(w.live[n], r), r);
            && full.pvs == g.pvs && full.path == g.path && full.needsPolling == g.needsPolling
            && full.volumes.Keys == g.volumes.Keys
            && (forall m :: m in g.volumes ==> full.volumes[m].path == g.volumes[m].path)
            && (RelinkAll(w.blocks, full) == w.blocks <==>
                forall p :: p in w.blocks ==> IsSettled(w.live, n, w.blocks[p]))
  {
    DistinctNamesDistinctPaths(w);
    var g, full := w.live[n], FullPass(Received(w.live[n], r), r);
    assert LiveInv(n, g);
    SkippedTables(g, r);
    forall p | p in w.blocks
      ensures Relink(w.blocks[p], full) == w.blocks[p] <==> IsSettled(w.live, n, w.blocks[p])
    {
      SkippedBlock(w, n, r, w.blocks[p]);
    }
    RelinkAllSame(w.blocks, full);
  }

  lemma RelinkAllSame(blocks: map<Path, Block>, g: Group)
    ensures RelinkAll(blocks, g) == blocks <==> forall p :: p in blocks ==> Relink(blocks[p], g) == blocks[p]
  {
    forall p | p in blocks
      ensures RelinkAll(blocks, g)[p] == Relink(blocks[p], g)
    {
    }
  }

  lemma ExactIsSettled(w: World, n: string, p: Path)
    requires ExactLinks(w) && LvExact(w) && n in w.live && p in w.blocks
    ensures IsSettled(w.live, n, w.blocks[p])
  {
  }

  /** Where disposed groups neither mislead nor unlink and no block was ever listed twice, the
      skip is the full pass as far as blocks can see, in every reachable state. */
  lemma SkippingInRuns(states: seq<World>, events: seq<Event>, k: nat, n: string, r: VgInfo)
    requires IsRun(states, events) && k <= |events| && AlwaysDistinct(states)
    requires NeverMisleads(states, events, k) && NeverUnlinks(states, events, k)
    requires forall i :: 0 <= i <= k ==> Disjoint(states[i])
    requires n in states[k].live && states[k].live[n].info == Some(r)
    ensures RelinkAll(states[k].blocks, FullPass(Received(states[k].live[n], r), r)) == states[k].blocks
    ensures Step(states[k], Show(Live(n), Success(r))).blocks == states[k].blocks
  {
    InvAlways(states, events, k);
    SoundRuns(states, events, k);
    LvRuns(states, events, k);
    ExactRuns(states, events, k);
    SkippingIsSound(states[k], n, r);
    forall p | p in states[k].blocks
      ensures IsSettled(states[k].live, n, states[k].blocks[p])
    {
      ExactIsSettled(states[k], n, p);
    }
  }

  /** The scalar properties are a real exception: after a poll, the full pass on the cached
      reply would put the polled value back. */
  lemma SkippingKeepsPolledValue(g: Group, name: string, r: VgInfo, polled: VgInfo)
    requires LiveInv(g.name, g) && g.info == Some(r)
    requires IsVisible(name)
    requires r.lvs == [LvInfo(name, None, Some(1), None, None, None, "")]
    requires polled.lvs == [LvInfo(name, None, Some(2), None, None, None, "")]
    ensures var skipped := Updated(Polled(g, polled), Success(r));
            var full := FullPass(Received(Polled(g, polled), r), r);
            name in skipped.volumes && name in full.volumes &&
            skipped.volumes[name].props.size == 2 && full.volumes[name].props.size == 1
  {
    var e, f := r.lvs[0], polled.lvs[0];
    assert VisibleNames(r.lvs) == {name} by {
      assert r.lvs[0].name in VisibleNames(r.lvs);
    }
    assert r.lvs[..0] == [] && polled.lvs[..0] == [];
    var v := Polled(g, polled).volumes;
    assert PollEntries(g.volumes, g.path, polled.lvs[..0]) == g.volumes;
    assert v == g.volumes[name := UpdateVolume(g.volumes[name], g.path, f)];
    assert AddEntries(v, g.path, r.lvs[..0]) == v;
    assert AddEntries(v, g.path, r.lvs) == v[name := UpdateVolume(v[name], g.path, e)];
  }

  // --- The order of the hash table does not matter --------------------------------------------

  ghost predicate OneClaim(live: map<string, Group>, b: Block) {
    forall m, n :: m in live && n in live && Claims(live[m], b) && Claims(live[n], b) ==> m == n
  }

  predicate IsFull(i: PvInfo) {
    i.size.Some? && i.freeSize.Some?
  }

  // The link after the groups in `order`, if group c is the only one to list the block.
  function PvAfter(live: map<string, Group>, b: Block, order: seq<string>, c: string, i: PvInfo): Option<PvLink>
    requires c in live
  {
    if c in order then Some(Describe(None, live[c].path, i))
    else if b.pv.Some? && exists n :: n in order && n in live && live[n].path == b.pv.value.group then None
    else b.pv
  }

  lemma {:induction false} RelinkFromClaimed(live: map<string, Group>, b: Block, order: seq<string>, c: string, i: PvInfo)
    requires forall n :: n in live ==> live[n].name == n
    requires NoRepeats(order) && forall n :: n in order ==> n in live
    requires OneClaim(live, b) && c in live && Match(live[c].pvs, b) == Some(i)
    requires b.pv.None? || IsFull(i)
    requires forall n :: n in live && n != c ==> live[n].path != live[c].path
    ensures RelinkFrom(b, live, order).pv == PvAfter(live, b, order, c, i)
    ensures RelinkFrom(b, live, order) == b.(pv := RelinkFrom(b, live, order).pv, lv := RelinkFrom(b, live, order).lv)
  {
    MatchIsClaim(live[c], b);
    if order != [] {
      var last := |order| - 1;
      var before, n := order[..last], order[last];
      assert order == before + [n];
      assert (forall m :: m in before ==> m in order) && n in order && n !in before;
      RelinkFromClaimed(live, b, before, c, i);
      var b1 := RelinkFrom(b, live, before);
      MatchIsClaim(live[n], b);
      assert Match(live[n].pvs, b1) == Match(live[n].pvs, b);
      PvAfterOneMore(live, b, before, n, c, i);
    }
  }

  lemma PvAfterOneMore(live: map<string, Group>, b: Block, before: seq<string>, n: string, c: string, i: PvInfo)
    requires n in live && c in live
    requires forall m :: m in live && m != c ==> live[m].path != live[c].path
    ensures n == c ==> PvAfter(live, b, before + [n], c, i) == Some(Describe(None, live[c].path, i))
    ensures n != c ==>
              var pv := PvAfter(live, b, before, c, i);
              PvAfter(live, b, before + [n], c, i) == (if pv.Some? && pv.value.group == live[n].path then None else pv)
  {
    var pv := PvAfter(live, b, before, c, i);
    assert n in before + [n];
    assert forall m :: m in before + [n] <==> m in before || m == n;
  }

  lemma {:induction false} RelinkFromUnclaimed(live: map<string, Group>, b: Block, order: seq<string>)
    requires NoRepeats(order) && forall n :: n in order ==> n in live
    requires forall n :: n in live ==> !Claims(live[n], b)
    ensures RelinkFrom(b, live, order).pv ==
            if b.pv.Some? && exists n :: n in order && n in live && live[n].path == b.pv.value.group then None else b.pv
    ensures RelinkFrom(b, live, order) == b.(pv := RelinkFrom(b, live, order).pv, lv := RelinkFrom(b, live, order).lv)
  {
    if order != [] {
      var last := |order| - 1;
      var before, n := order[..last], order[last];
      assert order == before + [n];
      assert (forall m :: m in before ==> m in order) && n in order;
      RelinkFromUnclaimed(live, b, before);
      var b1 := RelinkFrom(b, live, before);
      MatchIsClaim(live[n], b);
      assert Match(live[n].pvs, b1) == Match(live[n].pvs, b);
      assert forall m :: m in order <==> m in before || m == n;
    }
  }

  lemma {:induction false} RelinkFromLv(live: map<string, Group>, b: Block, order: seq<string>)
    requires forall n :: n in live ==> live[n].name == n
    requires forall n :: n in order ==> n in live
    ensures RelinkFrom(b, live, order).dm == b.dm
    ensures RelinkFrom(b, live, order).lv == if b.dm.Some? && b.dm.value.vg in order then DirectLv(live, b) else b.lv
  {
    if order != [] {
      var last := |order| - 1;
      assert order == order[..last] + [order[last]];
      assert forall m :: m in order[..last] ==> m in order;
      RelinkFromLv(live, b, order[..last]);
    }
  }

  lemma DescribedWhereClaimed(g: Group, b: Block)
    requires Claims(g, b)
    ensures Match(g.pvs, b).Some? && Describes(g.pvs, b.device, b.symlinks, Match(g.pvs, b).value)
  {
    MatchIsClaim(g, b);
    MatchMeans(g.pvs, b);
  }

  /** What the groups make of a block, told without any order. */
  ghost function Direct(live: map<string, Group>, b: Block): Block {
    b.(lv := if b.dm.Some? && b.dm.value.vg in live then DirectLv(live, b) else b.lv,
       pv := if exists n :: n in live && Claims(live[n], b) then
               var c :| c in live && Claims(live[c], b);
               DescribedWhereClaimed(live[c], b);
               var i :| Describes(live[c].pvs, b.device, b.symlinks, i);
               Some(PvLink(live[c].path, if i.size.Some? then i.size.value else 0, if i.freeSize.Some? then i.freeSize.value else 0))
             else if b.pv.Some? && exists n :: n in live && live[n].path == b.pv.value.group then None
             else b.pv)
  }

  /** Every order in which the hash table is walked gives the same block, the one that the
      direct description gives. */
  lemma OrderDoesNotMatter(live: map<string, Group>, b: Block, order: seq<string>)
    requires forall n :: n in live ==> live[n].name == n
    requires Enumerates(order, live.Keys) && OneClaim(live, b)
    requires forall m, n :: m in live && n in live && m != n && Claims(live[m], b) ==> live[n].path != live[m].path
    requires b.pv.None? || forall n :: n in live && Match(live[n].pvs, b).Some? ==> IsFull(Match(live[n].pvs, b).value)
    ensures RelinkFrom(b, live, order) == Direct(live, b)
  {
    RelinkFromLv(live, b, order);
    if exists n :: n in live && Claims(live[n], b) {
      ClaimedOrder(live, b, order);
    } else {
      UnclaimedOrder(live, b, order);
    }
  }

  lemma ClaimedOrder(live: map<string, Group>, b: Block, order: seq<string>)
    requires forall n :: n in live ==> live[n].name == n
    requires Enumerates(order, live.Keys) && OneClaim(live, b)
    requires forall m, n :: m in live && n in live && m != n && Claims(live[m], b) ==> live[n].path != live[m].path
    requires b.pv.None? || forall n :: n in live && Match(live[n].pvs, b).Some? ==> IsFull(Match(live[n].pvs, b).value)
    requires exists n :: n in live && Claims(live[n], b)
    ensures RelinkFrom(b, live, order).pv == Direct(live, b).pv
    ensures RelinkFrom(b, live, order) == b.(pv := RelinkFrom(b, live, order).pv, lv := RelinkFrom(b, live, order).lv)
  {
    var c :| c in live && Claims(live[c], b);
    DescribedWhereClaimed(live[c], b);
    MatchMeans(live[c].pvs, b);
    RelinkFromClaimed(live, b, order, c, Match(live[c].pvs, b).value);
    assert c in order;
  }

  lemma UnclaimedOrder(live: map<string, Group>, b: Block, order: seq<string>)
    requires Enumerates(order, live.Keys) && forall n :: n in live ==> !Claims(live[n], b)
    ensures RelinkFrom(b, live, order).pv == Direct(live, b).pv
    ensures RelinkFrom(b, live, order) == b.(pv := RelinkFrom(b, live, order).pv, lv := RelinkFrom(b, live, order).lv)
  {
    RelinkFromUnclaimed(live, b, order);
    assert (exists n :: n in order && n in live && b.pv.Some? && live[n].path == b.pv.value.group) <==>
           (exists n :: n in live && b.pv.Some? && live[n].path == b.pv.value.group);
  }

  lemma EnumerationEnding(names: set<string>, last: string) returns (order: seq<string>)
    requires last in names
    ensures Enumerates(order, names) && order != [] && order[|order| - 1] == last
  {
    var before := Enumeration(names - {last});
    order := before + [last];
  }

  lemma {:induction false} Enumeration(names: set<string>) returns (order: seq<string>)
    ensures Enumerates(order, names)
    decreases |names|
  {
    if names == {} {
      order := [];
    } else {
      var n :| n in names;
      var before := Enumeration(names - {n});
      order := before + [n];
    }
  }

  lemma LastClaimWins(live: map<string, Group>, b: Block, order: seq<string>)
    requires (forall n :: n in order ==> n in live) && order != [] && Claims(live[order[|order| - 1]], b)
    ensures var b' := RelinkFrom(b, live, order);
            b'.pv.Some? && b'.pv.value.group == live[order[|order| - 1]].path
  {
    var last := |order| - 1;
    assert forall n :: n in order[..last] ==> n in order;
    RelinkKeepsNames(b, live, order[..last]);
    MatchIsClaim(live[order[last]], RelinkFrom(b, live, order[..last]));
  }

  lemma {:induction false} RelinkKeepsNames(b: Block, live: map<string, Group>, order: seq<string>)
    requires forall n :: n in order ==> n in live
    ensures var b' := RelinkFrom(b, live, order); b'.device == b.device && b'.symlinks == b.symlinks
  {
    if order != [] {
      assert forall n :: n in order[..|order| - 1] ==> n in order;
      RelinkKeepsNames(b, live, order[..|order| - 1]);
    }
  }

  ghost predicate OrdersAgree(live: map<string, Group>, b: Block) {
    forall o1, o2 :: Enumerates(o1, live.Keys) && Enumerates(o2, live.Keys) ==>
      RelinkFrom(b, live, o1) == RelinkFrom(b, live, o2)
  }

  /** Where groups are at different paths, all orders agree exactly if at most one group lists
      the block. */
  lemma OrdersAgreeExactly(live: map<string, Group>, b: Block)
    requires forall n :: n in live ==> live[n].name == n
    requires forall m, n :: m in live && n in live && m != n ==> live[n].path != live[m].path
    requires b.pv.None? || forall n :: n in live && Match(live[n].pvs, b).Some? ==> IsFull(Match(live[n].pvs, b).value)
    ensures OrdersAgree(live, b) <==> OneClaim(live, b)
  {
    if OneClaim(live, b) {
      forall o1, o2 | Enumerates(o1, live.Keys) && Enumerates(o2, live.Keys)
        ensures RelinkFrom(b, live, o1) == RelinkFrom(b, live, o2)
      {
        OrderDoesNotMatter(live, b, o1);
        OrderDoesNotMatter(live, b, o2);
      }
    } else {
      var m, n :| m in live && n in live && Claims(live[m], b) && Claims(live[n], b) && m != n;
      var o1 := EnumerationEnding(live.Keys, m);
      var o2 := EnumerationEnding(live.Keys, n);
      LastClaimWins(live, b, o1);
      LastClaimWins(live, b, o2);
      assert Enumerates(o1, live.Keys) && Enumerates(o2, live.Keys);
    }
  }

  // --- The list reply -------------------------------------------------------------------------

  // Nothing of the group is exported.
  ghost predicate Gone(g: Group, n: string) {
    g.name == n && g.path.None? && g.volumes == map[] && g.pvs == map[]
  }

  // The block links neither to the group nor to a volume of it.
  ghost predicate Unlinked(b: Block, n: string, path: Option<Path>) {
    && (b.pv.Some? ==> b.pv.value.group != path)
    && (b.dm.Some? && b.dm.value.vg == n ==> b.lv.None?)
  }

  /** After a list reply the table holds exactly the listed names. Groups that were there are
      kept as they are; new ones hold nothing yet. */
  lemma ListReplyKeeps(w: World, names: seq<string>, gone: seq<string>, failed: set<nat>)
    requires Inv(w) && Enabled(w, List(names, gone, failed))
    ensures var live := Listed(w, names, gone, failed).live;
            && live.Keys == (set n | n in names)
            && (forall n :: n in names && n in w.live && !w.live[n].needPublish ==> live[n] == w.live[n])
            && (forall n :: n in names && n !in w.live ==> live[n].volumes == map[] && live[n].pvs == map[])
  {
    ListedLive(w, names, gone, failed);
    forall n | n in names
      ensures var g := Listing(w.live, n, n in FailedNames(names, failed));
              if n in w.live then !w.live[n].needPublish ==> g == w.live[n] else g.volumes == map[] && g.pvs == map[]
    {
    }
  }

  /** A group that is not listed leaves no path, no volume, and no link of a block to it or to
      its volumes. */
  lemma ListReplyRemoves(w: World, names: seq<string>, gone: seq<string>, failed: set<nat>)
    requires Inv(w) && Enabled(w, List(names, gone, failed))
    ensures var w' := Listed(w, names, gone, failed);
            && |w'.dead| == |w.dead| + |gone|
            && (forall i :: 0 <= i < |gone| ==> Gone(w'.dead[|w.dead| + i], gone[i]))
            && w'.blocks.Keys == w.blocks.Keys
            && (forall p, n :: p in w'.blocks && n in gone ==> Unlinked(w'.blocks[p], n, w.live[n].path))
  {
    var w1 := RemoveAll(w, gone);
    RemoveAllDead(w, gone);
    RemoveAllKeys(w, gone);
    forall p, n | p in w.blocks && n in gone
      ensures Unlinked(w1.blocks[p], n, w.live[n].path)
    {
      RemoveAllBlocks(w, gone, p);
      assert Lost(w.live, w.blocks[p], gone) || w.blocks[p].pv.None? || w.blocks[p].pv.value.group != w.live[n].path;
    }
    forall i | 0 <= i < |gone|
      ensures Gone(w1.dead[|w.dead| + i], gone[i])
    {
      assert gone[i] in gone && LiveInv(gone[i], w.live[gone[i]]);
    }
  }

  // --- Late replies ---------------------------------------------------------------------------

  lemma LateReplyBlock(w: World, i: nat, r: VgInfo, p: Path)
    requires Inv(w) && Enabled(w, Show(Dead(i), Success(r))) && w.dead[i].info != Some(r) && p in w.blocks
    ensures var b, w' := w.blocks[p], Step(w, Show(Dead(i), Success(r)));
            p in w'.blocks &&
            w'.blocks[p].pv == match Match(PvTable(r.pvs), b)
                               case Some(d) => Some(Describe(b.pv, None, d))
                               case None => if b.pv.Some? && b.pv.value.group.None? then None else b.pv
    ensures var b, w' := w.blocks[p], Step(w, Show(Dead(i), Success(r)));
            w'.blocks[p] == b.(pv := w'.blocks[p].pv,
                               lv := if IsNamed(b, w.dead[i].name) then LateLink(r, b.dm.value.lv) else b.lv)
  {
    LateGroup(w.dead[i], Success(r));
    LateWorld(w, i, Success(r));
  }

  /** The reply may hold the last reference to the group, which it does only if the group never
      had a visible volume. */
  lemma MayBeLast(w: World, i: nat, r: VgInfo)
    requires Enabled(w, Show(Dead(i), Success(r))) && w.dead[i].info != Some(r)
    ensures Enabled(Step(w, Show(Dead(i), Success(r))), LastUnref(i)) <==>
            !w.dead[i].anchored && VisibleNames(r.lvs) == {}
  {
  }

  // Group i is described after its disposal, and that was its last callback.
  function LastReply(w: World, i: nat, r: VgInfo): World
    requires Enabled(w, Show(Dead(i), Success(r))) && w.dead[i].info != Some(r)
    requires !w.dead[i].anchored && VisibleNames(r.lvs) == {}
  {
    MayBeLast(w, i, r);
    Step(Step(w, Show(Dead(i), Success(r))), LastUnref(i))
  }

  lemma LastReplyBlock(w: World, i: nat, r: VgInfo, p: Path)
    requires Inv(w) && Sound(w) && Enabled(w, Show(Dead(i), Success(r))) && w.dead[i].info != Some(r)
    requires !w.dead[i].anchored && VisibleNames(r.lvs) == {} && p in w.blocks
    ensures var b, w' := w.blocks[p], LastReply(w, i, r);
            p in w'.blocks &&
            w'.blocks[p] == b.(pv := if Match(PvTable(r.pvs), b).Some? then None else b.pv,
                               lv := if IsNamed(b, w.dead[i].name) then None else b.lv)
  {
    LateReplyBlock(w, i, r, p);
    LateGroup(w.dead[i], Success(r));
    ReasonedIsOnBus(w, w.blocks[p]);
    FreedBlock(Step(w, Show(Dead(i), Success(r))), i, p);
  }

  lemma LastReplyLive(w: World, i: nat, r: VgInfo)
    requires Enabled(w, Show(Dead(i), Success(r))) && w.dead[i].info != Some(r)
    requires !w.dead[i].anchored && VisibleNames(r.lvs) == {}
    ensures LastReply(w, i, r).live == w.live && LastReply(w, i, r).blocks.Keys == w.blocks.Keys
  {
  }

  lemma LastReplySound(w: World, i: nat, r: VgInfo)
    requires Inv(w) && Sound(w) && Enabled(w, Show(Dead(i), Success(r))) && w.dead[i].info != Some(r)
    requires !w.dead[i].anchored && VisibleNames(r.lvs) == {}
    ensures Sound(LastReply(w, i, r))
  {
    var w' := LastReply(w, i, r);
    LastReplyLive(w, i, r);
    forall p | p in w'.blocks
      ensures Reasoned(w'.live, w'.blocks[p])
    {
      LastReplyBlock(w, i, r, p);
      var b, b' := w.blocks[p], w'.blocks[p];
      if b'.pv.Some? {
        var n :| LinkedTo(w.live, b, n);
        assert LinkedTo(w'.live, b', n);
      }
    }
  }

  /** Then the group is disposed a second time before the callback ends, and the links are sound
      again. But every block that the reply lists has lost its link, and every block named like
      the group its volume link: all live groups find their blocks linked exactly if none of them
      lists a block that the reply lists, and their volumes exactly if none is named by a block. */
  lemma LateReply(w: World, i: nat, r: VgInfo)
    requires Inv(w) && Sound(w) && Enabled(w, Show(Dead(i), Success(r))) && w.dead[i].info != Some(r)
    requires !w.dead[i].anchored && VisibleNames(r.lvs) == {}
    ensures Sound(LastReply(w, i, r))
    ensures Complete(w) ==>
            (Complete(LastReply(w, i, r)) <==>
             forall p, n :: p in w.blocks && n in w.live && Match(PvTable(r.pvs), w.blocks[p]).Some? ==>
               !Claims(w.live[n], w.blocks[p]))
    ensures LvExact(w) ==>
            (LvExact(LastReply(w, i, r)) <==>
             forall p :: p in w.blocks && IsNamed(w.blocks[p], w.dead[i].name) ==> DirectLv(w.live, w.blocks[p]).None?)
  {
    var w' := LastReply(w, i, r);
    LastReplySound(w, i, r);
    LastReplyLive(w, i, r);
    forall p | p in w.blocks
      ensures LvExact(w) ==>
              (w'.blocks[p].lv == DirectLv(w'.live, w'.blocks[p]) <==>
               (IsNamed(w.blocks[p], w.dead[i].name) ==> DirectLv(w.live, w.blocks[p]).None?))
      ensures CompleteAt(w, w.blocks[p]) ==>
              (CompleteAt(w', w'.blocks[p]) <==>
               (Match(PvTable(r.pvs), w.blocks[p]).Some? ==> forall n :: n in w.live ==> !Claims(w.live[n], w.blocks[p])))
    {
      LastReplyBlock(w, i, r, p);
      assert forall n :: n in w.live ==> (Claims(w.live[n], w'.blocks[p]) <==> Claims(w.live[n], w.blocks[p]));
    }
  }
}
