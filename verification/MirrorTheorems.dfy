/** The main results about the mirror. */
module MirrorTheorems {
  import opened Wrappers
  import opened MirrorState
  import opened MirrorRuns
  import opened MirrorLinks
  import ObjectPath

  // --- Paths ----------------------------------------------------------------------------------

  /** Two groups share an object path exactly if the encoding cannot tell their names apart. */
  lemma SameGroupPath(m: string, n: string)
    requires ObjectPath.IsCString(m) && ObjectPath.IsCString(n)
    ensures GroupPath(m) == GroupPath(n) <==> ObjectPath.Decode(m) == ObjectPath.Decode(n)
  {
    ObjectPath.SamePath(LVM_BASE, [m], [n]);
  }

  /** Two volumes share an object path exactly if neither their own names nor those of their
      groups are told apart. What happens then is in `Displacement` and `Collisions`. */
  lemma SameVolumePath(m: string, n: string, v: string, u: string)
    requires ObjectPath.IsCString(m) && ObjectPath.IsCString(n)
    requires ObjectPath.IsCString(v) && ObjectPath.IsCString(u)
    ensures ObjectPath.Build(GroupPath(m), [v]) == ObjectPath.Build(GroupPath(n), [u]) <==>
            ObjectPath.Decode(m) == ObjectPath.Decode(n) && ObjectPath.Decode(v) == ObjectPath.Decode(u)
  {
    TwoElements(m, v);
    TwoElements(n, u);
    ObjectPath.SamePath(LVM_BASE, [m, v], [n, u]);
    PairsAgree(m, v, n, u);
  }

  lemma PairsAgree(m: string, v: string, n: string, u: string)
    ensures (forall i :: 0 <= i < |[m, v]| ==> ObjectPath.Decode([m, v][i]) == ObjectPath.Decode([n, u][i])) <==>
            ObjectPath.Decode(m) == ObjectPath.Decode(n) && ObjectPath.Decode(v) == ObjectPath.Decode(u)
  {
    assert [m, v][0] == m && [m, v][1] == v && [n, u][0] == n && [n, u][1] == u;
  }

  lemma TwoElements(m: string, v: string)
    ensures ObjectPath.Build(GroupPath(m), [v]) == ObjectPath.Build(LVM_BASE, [m, v])
  {
    ObjectPath.ElementsOneMore(LVM_BASE, [m, v], 0);
    assert [m, v][0..] == [m, v] && [m, v][1..] == [v];
    ObjectPath.ElementsOneMore(LVM_BASE, [m], 0);
    assert [m][0..] == [m] && [m][1..] == [];
    assert ObjectPath.Elements([]) == "";
    assert GroupPath(m) == LVM_BASE + "/" + ObjectPath.Encode(m);
  }

  /** The group names in use are told apart by the encoding. */
  ghost predicate DistinctNames(w: World) {
    && (forall n :: n in w.live ==> ObjectPath.IsCString(n))
    && (forall m, n :: m in w.live && n in w.live && ObjectPath.Decode(m) == ObjectPath.Decode(n) ==> m == n)
  }

  lemma DistinctNamesDistinctPaths(w: World)
    requires Inv(w) && DistinctNames(w)
    ensures DistinctPaths(w.live)
  {
    forall m, n | m in w.live && n in w.live && w.live[m].path == w.live[n].path && w.live[m].pvs != map[]
      ensures m == n
    {
      assert LiveInv(m, w.live[m]) && LiveInv(n, w.live[n]);
      SameGroupPath(m, n);
    }
  }

  // --- When links are complete ----------------------------------------------------------------

  // Some group outside `gone` lists the block.
  ghost predicate StillClaimed(live: map<string, Group>, b: Block, gone: seq<string>) {
    exists m :: m in live && m !in gone && Claims(live[m], b)
  }

  /** The event makes a group let go of a block that is linked to it and that another group
      lists as well. */
  ghost predicate Abandons(w: World, e: Event)
    requires Enabled(w, e)
  {
    match e
    case Show(Live(n), reply) =>
      && IsChange(w.live[n], reply)
      && exists p :: p in w.blocks && LinkedTo(w.live, w.blocks[p], n)
                     && Match(PvTable(reply.value.pvs), w.blocks[p]).None?
                     && StillClaimed(w.live, w.blocks[p], [n])
    case List(names, gone, _) =>
      exists p, n :: p in w.blocks && n in gone && LinkedTo(w.live, w.blocks[p], n)
                     && StillClaimed(w.live, w.blocks[p], gone)
    case _ => false
  }

  lemma PathsAfterShow(w: World, n: string, reply: Reply)
    requires Inv(w) && DistinctNames(w) && n in w.live
    ensures var g := Updated(w.live[n], reply);
            && (w.live[n].pvs != map[] ==> g.path == w.live[n].path)
            && forall m :: m in w.live && m != n && w.live[m].path == g.path ==> w.live[m].pvs == map[]
  {
    forall m | m in w.live && m != n && w.live[m].path == Updated(w.live[n], reply).path
      ensures w.live[m].pvs == map[]
    {
      assert LiveInv(m, w.live[m]) && LiveInv(n, w.live[n]);
      SameGroupPath(m, n);
    }
  }

  lemma ShownCompleteAt(w: World, n: string, g: Group, b: Block)
    requires CompleteAt(w, b) && Reasoned(w.live, b)
    requires n in w.live && (w.live[n].pvs != map[] ==> g.path == w.live[n].path)
    requires forall m :: m in w.live && m != n && w.live[m].path == g.path ==> w.live[m].pvs == map[]
    ensures CompleteAt(w.(live := w.live[n := g]), Relink(b, g)) <==>
            !(LinkedTo(w.live, b, n) && Match(g.pvs, b).None? && StillClaimed(w.live, b, [n]))
  {
    var b', live' := Relink(b, g), w.live[n := g];
    MatchIsClaim(g, b);
    assert forall m :: m in live' && m != n ==> (Claims(live'[m], b') <==> Claims(w.live[m], b));
    if Match(g.pvs, b).None? && b.pv.Some? && b.pv.value.group == g.path {
      var m :| LinkedTo(w.live, b, m);
      assert m == n;
      if StillClaimed(w.live, b, [n]) {
        var k :| k in w.live && k !in [n] && Claims(w.live[k], b);
        assert Claims(live'[k], b');
      } else {
        assert forall k :: k in w.live && k != n ==> k !in [n];
      }
    }
  }

  lemma ShownComplete(w: World, n: string, reply: Reply)
    requires Inv(w) && Sound(w) && DistinctNames(w) && Complete(w)
    requires n in w.live && IsChange(w.live[n], reply)
    ensures Complete(Shown(w, Live(n), reply)) <==> !Abandons(w, Show(Live(n), reply))
  {
    var w' := Shown(w, Live(n), reply);
    var g := Updated(w.live[n], reply);
    PathsAfterShow(w, n, reply);
    forall p | p in w.blocks
      ensures CompleteAt(w', w'.blocks[p]) <==>
              !(LinkedTo(w.live, w.blocks[p], n) && Match(g.pvs, w.blocks[p]).None?
                && StillClaimed(w.live, w.blocks[p], [n]))
    {
      ShownCompleteAt(w, n, g, w.blocks[p]);
    }
  }

  ghost predicate Lost(live: map<string, Group>, b: Block, gone: seq<string>) {
    b.pv.Some? && exists n :: n in gone && n in live && live[n].path == b.pv.value.group
  }

  // Removing groups takes their links away and nothing else.
  lemma {:induction false} RemoveAllBlocks(w: World, gone: seq<string>, p: Path)
    requires NoRepeats(gone) && (forall n :: n in gone ==> n in w.live) && p in w.blocks
    requires forall n :: n in w.live ==> w.live[n].name == n
    ensures var w', b := RemoveAll(w, gone), w.blocks[p];
            && p in w'.blocks
            && w'.blocks[p] == b.(pv := if Lost(w.live, b, gone) then None else b.pv,
                                  lv := if b.dm.Some? && b.dm.value.vg in gone then None else b.lv)
  {
    if gone != [] {
      var last := |gone| - 1;
      var before, n := gone[..last], gone[last];
      assert gone == before + [n];
      assert forall m :: m in before ==> m in gone;
      RemoveAllBlocks(w, before, p);
      assert n in gone && n !in before;
      RemoveOneBlock(w, RemoveAll(w, before), before, n, p);
    }
  }

  lemma RemoveOneBlock(w: World, w1: World, before: seq<string>, n: string, p: Path)
    requires p in w.blocks && p in w1.blocks && n in w.live && n in w1.live
    requires w.live[n].name == n && w1.live[n] == w.live[n]
    requires var b := w.blocks[p];
             w1.blocks[p] == b.(pv := if Lost(w.live, b, before) then None else b.pv,
                                lv := if b.dm.Some? && b.dm.value.vg in before then None else b.lv)
    ensures var b := w.blocks[p];
            p in Remove(w1, n).blocks &&
            Remove(w1, n).blocks[p] == b.(pv := if Lost(w.live, b, before + [n]) then None else b.pv,
                                          lv := if b.dm.Some? && b.dm.value.vg in before + [n] then None else b.lv)
  {
    RelinkCleared(w1.blocks[p], w.live[n]);
    LostOneMore(w.live, w.blocks[p], before, n);
  }

  // The groups in `gone` follow the old ones, disposed and in that order.
  predicate Appended(live: map<string, Group>, past: seq<Group>, gone: seq<string>, dead: seq<Group>) {
    && |dead| == |past| + |gone|
    && (forall i :: 0 <= i < |past| ==> dead[i] == past[i])
    && (forall i :: 0 <= i < |gone| ==> gone[i] in live && dead[|past| + i] == Disposed(live[gone[i]]))
  }

  lemma AppendedOneMore(live: map<string, Group>, past: seq<Group>, gone: seq<string>, dead: seq<Group>, n: string)
    requires Appended(live, past, gone, dead) && n in live
    ensures Appended(live, past, gone + [n], dead + [Disposed(live[n])])
  {
  }

  lemma {:induction false} RemoveAllAppends(w: World, gone: seq<string>)
    requires NoRepeats(gone) && forall n :: n in gone ==> n in w.live
    ensures Appended(w.live, w.dead, gone, RemoveAll(w, gone).dead)
  {
    if gone != [] {
      var last := |gone| - 1;
      assert gone[last] in gone && forall m :: m in gone[..last] ==> m in gone;
      RemoveAllAppends(w, gone[..last]);
      assert gone[last] !in gone[..last] && gone[..last] + [gone[last]] == gone;
      AppendedOneMore(w.live, w.dead, gone[..last], RemoveAll(w, gone[..last]).dead, gone[last]);
    }
  }

  lemma RemoveAllDead(w: World, gone: seq<string>)
    requires NoRepeats(gone) && forall n :: n in gone ==> n in w.live
    ensures var w' := RemoveAll(w, gone);
            && |w'.dead| == |w.dead| + |gone|
            && (forall i :: 0 <= i < |w.dead| ==> w'.dead[i] == w.dead[i])
            && (forall i :: 0 <= i < |gone| ==> w'.dead[|w.dead| + i] == Disposed(w.live[gone[i]]))
  {
    RemoveAllAppends(w, gone);
  }

  lemma LostOneMore(live: map<string, Group>, b: Block, before: seq<string>, n: string)
    ensures Lost(live, b, before + [n]) <==>
            Lost(live, b, before) || (b.pv.Some? && n in live && live[n].path == b.pv.value.group)
  {
    if Lost(live, b, before) {
      var m :| m in before && m in live && live[m].path == b.pv.value.group;
      assert m in before + [n];
    }
    assert n in before + [n];
  }

  lemma ListedCompleteAt(w: World, w1: World, gone: seq<string>, p: Path)
    requires Inv(w) && DistinctPaths(w.live) && p in w.blocks && CompleteAt(w, w.blocks[p]) && Reasoned(w.live, w.blocks[p])
    requires NoRepeats(gone) && (forall n :: n in gone ==> n in w.live) && w1 == RemoveAll(w, gone)
    ensures p in w1.blocks
    ensures CompleteAt(w1, w1.blocks[p]) <==>
            !((exists n :: n in gone && LinkedTo(w.live, w.blocks[p], n)) && StillClaimed(w.live, w.blocks[p], gone))
  {
    var b := w.blocks[p];
    RemoveAllBlocks(w, gone, p);
    LostMeans(w.live, b, gone);
    StillClaimedMeans(w.live, w1.live, b, w1.blocks[p], gone);
  }

  lemma LostMeans(live: map<string, Group>, b: Block, gone: seq<string>)
    requires DistinctPaths(live) && Reasoned(live, b)
    ensures Lost(live, b, gone) <==> exists n :: n in gone && LinkedTo(live, b, n)
  {
    if b.pv.Some? {
      var k :| LinkedTo(live, b, k);
      assert Lost(live, b, gone) <==> k in gone;
    }
  }

  lemma StillClaimedMeans(live: map<string, Group>, left: map<string, Group>, b: Block, b': Block, gone: seq<string>)
    requires left == live - (set n | n in gone) && b' == b.(pv := b'.pv, lv := b'.lv)
    ensures StillClaimed(live, b, gone) <==> exists m :: m in left && Claims(left[m], b')
  {
    assert forall m :: m in left <==> m in live && m !in gone;
    assert forall m :: m in left ==> (Claims(left[m], b') <==> Claims(live[m], b));
  }

  lemma ListedComplete(w: World, names: seq<string>, gone: seq<string>, failed: set<nat>)
    requires Inv(w) && Sound(w) && DistinctNames(w) && Complete(w)
    requires Enabled(w, List(names, gone, failed))
    ensures Complete(Listed(w, names, gone, failed)) <==> !Abandons(w, List(names, gone, failed))
  {
    DistinctNamesDistinctPaths(w);
    var w1 := RemoveAll(w, gone);
    RemoveAllKeepsInv(w, gone);
    forall p | p in w.blocks
      ensures p in w1.blocks
      ensures CompleteAt(w1, w1.blocks[p]) <==>
              !((exists n :: n in gone && LinkedTo(w.live, w.blocks[p], n)) && StillClaimed(w.live, w.blocks[p], gone))
    {
      ListedCompleteAt(w, w1, gone, p);
    }
    forall p | p in w1.blocks
      ensures p in w.blocks
    {
      RemoveAllKeys(w, gone);
    }
    AddGroupsIsQuiet(w1, names, failed);
    FrameAll(w1, Listed(w, names, gone, failed));
  }

  lemma {:induction false} RemoveAllKeys(w: World, gone: seq<string>)
    requires NoRepeats(gone) && forall n :: n in gone ==> n in w.live
    ensures RemoveAll(w, gone).blocks.Keys == w.blocks.Keys
  {
    if gone != [] {
      assert forall n :: n in gone[..|gone| - 1] ==> n in gone;
      RemoveAllKeys(w, gone[..|gone| - 1]);
    }
  }

  // What a group that is on no path leaves unlinked was not linked before.
  lemma OffBusCompleteAt(w: World, g: Group, b: Block)
    requires Inv(w) && g.path.None? && Reasoned(w.live, b) && CompleteAt(w, b)
    ensures CompleteAt(w, Relink(b, g))
  {
    LatePv(w, g, b);
    assert forall n :: n in w.live ==> (Claims(w.live[n], Relink(b, g)) <==> Claims(w.live[n], b));
  }

  lemma OffBusComplete(w: World, w': World, g: Group)
    requires Inv(w) && Sound(w) && Complete(w) && g.path.None?
    requires w'.live == w.live && w'.blocks == RelinkAll(w.blocks, g)
    ensures Complete(w')
  {
    forall p | p in w.blocks
      ensures CompleteAt(w', w'.blocks[p])
    {
      OffBusCompleteAt(w, g, w.blocks[p]);
    }
  }

  /** From a state where every listed block is linked, the next state is like that too
      exactly if the event abandons no block. */
  lemma CompleteStep(w: World, e: Event)
    requires Inv(w) && Sound(w) && DistinctNames(w) && Complete(w) && Enabled(w, e)
    ensures Complete(Step(w, e)) <==> !Abandons(w, e)
  {
    match e
    case Show(t, reply) =>
      if !IsChange(Find(w, t), reply) {
        QuietStep(w, e);
      } else if t.Live? {
        ShownComplete(w, t.name, reply);
      } else {
        LateGroup(w.dead[t.index], reply);
        LateWorld(w, t.index, reply);
        OffBusComplete(w, Step(w, e), Updated(w.dead[t.index], reply));
      }
    case Poll(_, _) => QuietStep(w, e);
    case List(names, gone, failed) => ListedComplete(w, names, gone, failed);
    case BlockAdded(p, b, order) =>
      DistinctNamesDistinctPaths(w);
      BlockAddedComplete(w, p, b, order);
    case BlockRemoved(_) =>
    case LastUnref(i) => OffBusComplete(w, Step(w, e), Disposed(w.dead[i]));
  }

  ghost predicate AlwaysDistinct(states: seq<World>) {
    forall i :: 0 <= i < |states| ==> DistinctNames(states[i])
  }

  ghost predicate NeverAbandons(states: seq<World>, events: seq<Event>, k: nat)
    requires IsRun(states, events) && k <= |events|
  {
    forall i :: 0 <= i < k ==> !Abandons(states[i], events[i])
  }

  ghost predicate AlwaysComplete(states: seq<World>, k: nat)
    requires k < |states|
  {
    forall i :: 0 <= i <= k ==> Complete(states[i])
  }

  lemma CompleteHere(states: seq<World>, events: seq<Event>, i: nat)
    requires IsRun(states, events) && i < |events| && NeverMisleads(states, events, i) && AlwaysDistinct(states)
    ensures Complete(states[i]) ==> (Complete(states[i + 1]) <==> !Abandons(states[i], events[i]))
  {
    InvAlways(states, events, i);
    SoundRuns(states, events, i);
    if Complete(states[i]) { CompleteStep(states[i], events[i]); }
  }

  /** Over runs in which no description misleads: links are complete in every state up to the
      k-th exactly if none of the first k events abandons a block. */
  lemma CompleteRuns(states: seq<World>, events: seq<Event>, k: nat)
    requires IsRun(states, events) && k <= |events| && NeverMisleads(states, events, k) && AlwaysDistinct(states)
    ensures AlwaysComplete(states, k) <==> NeverAbandons(states, events, k)
  {
    forall i | 0 <= i < k
      ensures Complete(states[i]) ==> (Complete(states[i + 1]) <==> !Abandons(states[i], events[i]))
    {
      CompleteHere(states, events, i);
    }
    assert Complete(states[0]);
    var holds := seq(k + 1, i requires 0 <= i <= k => Complete(states[i]));
    var breaks := seq(k, i requires 0 <= i < k => Abandons(states[i], events[i]));
    UntilFirst(holds, breaks);
    assert forall i :: 0 <= i <= k ==> holds[i] == Complete(states[i]);
    assert forall i :: 0 <= i < k ==> breaks[i] == Abandons(states[i], events[i]);
  }

  /** No block is listed by two groups. */
  ghost predicate Disjoint(w: World) {
    forall p, m, n | p in w.blocks && m in w.live && n in w.live ::
      Claims(w.live[m], w.blocks[p]) && Claims(w.live[n], w.blocks[p]) ==> m == n
  }

  // The relational definition of the physical volume links.
  ghost predicate ExactLinks(w: World) {
    forall p, n :: p in w.blocks && n in w.live ==>
      (Claims(w.live[n], w.blocks[p]) <==>
       w.blocks[p].pv.Some? && w.live[n].path.Some? && w.blocks[p].pv.value.group == w.live[n].path)
  }

  lemma ExactWhenDisjoint(w: World)
    requires Inv(w) && Sound(w) && DistinctNames(w) && Complete(w) && Disjoint(w)
    ensures ExactLinks(w)
  {
    DistinctNamesDistinctPaths(w);
    forall p, n | p in w.blocks && n in w.live
      ensures Claims(w.live[n], w.blocks[p]) <==>
              w.blocks[p].pv.Some? && w.live[n].path.Some? && w.blocks[p].pv.value.group == w.live[n].path
    {
      var b := w.blocks[p];
      assert LiveInv(n, w.live[n]) && CompleteAt(w, b);
      if b.pv.Some? {
        assert Reasoned(w.live, b);
        var m :| LinkedTo(w.live, b, m);
      }
    }
  }

  lemma DisjointNeverAbandons(w: World, e: Event)
    requires Inv(w) && Disjoint(w) && Enabled(w, e)
    ensures !Abandons(w, e)
  {
  }

  /** If no description misleads and no block is ever listed by two groups, the physical volume
      links are at all times exactly the relational definition. */
  lemma ExactRuns(states: seq<World>, events: seq<Event>, k: nat)
    requires IsRun(states, events) && k <= |events| && NeverMisleads(states, events, k) && AlwaysDistinct(states)
    requires forall i :: 0 <= i <= k ==> Disjoint(states[i])
    ensures ExactLinks(states[k])
  {
    forall i | 0 <= i < k
      ensures !Abandons(states[i], events[i])
    {
      InvAlways(states, events, i);
      DisjointNeverAbandons(states[i], events[i]);
    }
    CompleteRuns(states, events, k);
    SoundRuns(states, events, k);
    InvAlways(states, events, k);
    ExactWhenDisjoint(states[k]);
  }
}
