/** Updates of the whole mirror (src/manager.c): a list of the groups comes back, then one
    description of each listed group, and the last of them completes the update. Coldplug,
    which ignores locks, is followed by a warmplug. The world takes the steps of `Displacement`. */
module Batch {
  import opened Wrappers
  import opened MirrorState
  import Displacement
  import Collisions
  import MirrorRuns
  import MirrorTheorems

  // --- The barrier as it is kept ----------------------------------------------------------

  /** `completions` counts the calls that answer the waiting call and free the data. */
  datatype Data = Data(ignoreLocks: bool, pending: int, completions: nat)

  function UpdateDone(d: Data): Data {
    d.(completions := d.completions + 1)
  }

  function VgUpdateDone(d: Data): Data {
    var e := d.(pending := d.pending - 1);
    if e.pending == 0 then UpdateDone(e) else e
  }

  function GroupsListed(d: Data, n: nat): Data {
    var e := d.(pending := d.pending + n);
    if e.pending == 0 then UpdateDone(e) else e
  }

  predicate Completes(before: Data, after: Data) {
    after.completions > before.completions
  }

  class UpdateData {
    const ignoreLocks: bool
    var pending: int
    var completions: nat

    ghost function View(): Data
      reads this
    {
      Data(ignoreLocks, pending, completions)
    }

    constructor (ignoreLocks: bool)
      ensures View() == Data(ignoreLocks, 0, 0)
    {
      this.ignoreLocks := ignoreLocks;
      pending, completions := 0, 0;
    }
  }

  class StorageManager {
    // lvm_delayed_update_id is set
    var delayed: bool

    constructor ()
      ensures !delayed
    {
      delayed := false;
    }

    method TriggerDelayedLvmUpdate()
      modifies this
      ensures delayed
    {
      if delayed {
        return;
      }
      delayed := true;
    }

    method DelayedLvmUpdate() returns (data: UpdateData)
      modifies this
      ensures !delayed && fresh(data) && data.View() == Data(false, 0, 0)
    {
      data := new UpdateData(false);
      delayed := false;
    }

    method LvmUpdateDone(data: UpdateData)
      modifies this, data
      ensures data.View() == UpdateDone(old(data.View()))
      ensures delayed == (old(delayed) || data.ignoreLocks)
    {
      if data.ignoreLocks {
        TriggerDelayedLvmUpdate();
      }
      data.completions := data.completions + 1;
    }

    method LvmVgUpdateDone(data: UpdateData)
      modifies this, data
      ensures data.View() == VgUpdateDone(old(data.View()))
      ensures delayed == (old(delayed) || (data.ignoreLocks && Completes(old(data.View()), data.View())))
    {
      data.pending := data.pending - 1;
      if data.pending == 0 {
        LvmUpdateDone(data);
      }
    }

    /** The groups of the reply are counted one by one. The update of each runs later, or fails
        at once; a failure never calls back, see `Mirror.StorageVolumeGroup.UpdateWithVariant`. */
    method LvmUpdateFromVariant(data: UpdateData, names: seq<string>)
      modifies this, data
      ensures data.View() == GroupsListed(old(data.View()), |names|)
      ensures delayed == (old(delayed) || (data.ignoreLocks && Completes(old(data.View()), data.View())))
    {
      var i := 0;
      while i < |names|
        invariant 0 <= i <= |names|
        invariant data.View() == old(data.View()).(pending := old(data.pending) + i) && delayed == old(delayed)
      {
        data.pending := data.pending + 1;
        i := i + 1;
      }
      if data.pending == 0 {
        LvmUpdateDone(data);
      }
    }
  }

  // --- Updates in flight ------------------------------------------------------------------

  datatype Phase = Asked | Lost | Answered

  /** One update: which of the listed positions still wait for a description and of which
      group object, which got one that was a change, and which got another answer. */
  datatype Batch = Batch(data: Data, phase: Phase, names: seq<string>,
                         waiting: map<nat, Target>, changed: set<nat>, silent: set<nat>)

  datatype Cycle = Cycle(world: World, batches: seq<Batch>, delayed: bool, cold: Option<nat>, uevents: nat)

  datatype Event =
    | StartUp
    | Uevent
    | TimerFires
    | ListFails(b: nat)
    | ListReply(b: nat, names: seq<string>, gone: seq<string>, failed: set<nat>)
    | ShowReply(b: nat, k: nat, reply: Reply)
    | Other(event: MirrorState.Event)

  const START := Cycle(EMPTY, [], false, None, 0)

  function NewBatch(ignoreLocks: bool): Batch {
    Batch(Data(ignoreLocks, 0, 0), Asked, [], map[], {}, {})
  }

  // An update waits for a description of that group, and with it holds a reference to it.
  predicate IsAwaited(c: Cycle, t: Target) {
    exists b :: 0 <= b < |c.batches| && t in c.batches[b].waiting.Values
  }

  predicate Enabled(c: Cycle, e: Event) {
    match e
    case StartUp => c.cold.None?
    case Uevent => true
    case TimerFires => c.delayed
    case ListFails(b) => b < |c.batches| && c.batches[b].phase == Asked
    case ListReply(b, names, gone, failed) =>
      && b < |c.batches| && c.batches[b].phase == Asked
      && MirrorState.Enabled(c.world, List(names, gone, failed))
    case ShowReply(b, k, _) =>
      b < |c.batches| && k in c.batches[b].waiting && Known(c.world, c.batches[b].waiting[k])
    case Other(m) =>
      && (m.Poll? || m.BlockAdded? || m.BlockRemoved? || m.LastUnref?) && MirrorState.Enabled(c.world, m)
      && (m.LastUnref? ==> !IsAwaited(c, Dead(m.index)))
  }

  function IndexOf(s: seq<string>, n: string): (i: nat)
    requires n in s
    ensures i < |s| && s[i] == n
  {
    if s[0] == n then 0 else 1 + IndexOf(s[1..], n)
  }

  // Where a group is found after the groups in `gone` were disposed.
  function Moved(t: Target, gone: seq<string>, dead: nat): Target {
    if t.Live? && t.name in gone then Dead(dead + IndexOf(gone, t.name)) else t
  }

  function Follow(b: Batch, gone: seq<string>, dead: nat): Batch {
    b.(waiting := map k | k in b.waiting :: Moved(b.waiting[k], gone, dead))
  }

  function TakeList(b: Batch, names: seq<string>, failed: set<nat>): Batch {
    b.(data := GroupsListed(b.data, |names|), phase := Answered, names := names,
       waiting := map k: nat | k < |names| && k !in failed :: Live(names[k]),
       silent := set k: nat | k < |names| && k in failed)
  }

  function TakeReply(b: Batch, k: nat, change: bool): Batch {
    var a := b.(waiting := b.waiting - {k});
    if change then a.(data := VgUpdateDone(b.data), changed := b.changed + {k})
    else a.(silent := b.silent + {k})
  }

  predicate Warms(before: Batch, after: Batch) {
    before.data.ignoreLocks && Completes(before.data, after.data)
  }

  function Step(c: Cycle, e: Event): Cycle
    requires Enabled(c, e)
  {
    match e
    case StartUp => c.(batches := c.batches + [NewBatch(true)], cold := Some(|c.batches|))
    case Uevent => c.(delayed := true, uevents := c.uevents + 1)
    case TimerFires => c.(batches := c.batches + [NewBatch(false)], delayed := false)
    case ListFails(b) => c.(batches := c.batches[b := c.batches[b].(phase := Lost)])
    case ListReply(b, names, gone, failed) =>
      var before := seq(|c.batches|, i requires 0 <= i < |c.batches| => Follow(c.batches[i], gone, |c.world.dead|));
      var after := TakeList(c.batches[b], names, failed);
      c.(world := Displacement.Step(c.world, List(names, gone, failed)),
         batches := before[b := after],
         delayed := c.delayed || Warms(c.batches[b], after))
    case ShowReply(b, k, reply) =>
      var t := c.batches[b].waiting[k];
      var after := TakeReply(c.batches[b], k, IsChange(Find(c.world, t), reply));
      c.(world := Displacement.Step(c.world, Show(t, reply)),
         batches := c.batches[b := after],
         delayed := c.delayed || Warms(c.batches[b], after))
    case Other(m) => c.(world := Displacement.Step(c.world, m))
  }

  ghost predicate IsRun(states: seq<Cycle>, events: seq<Event>) {
    && |states| == |events| + 1
    && states[0] == START
    && forall i :: 0 <= i < |events| ==>
         Enabled(states[i], events[i]) && states[i + 1] == Step(states[i], events[i])
  }

  // --- What holds in every run ------------------------------------------------------------

  // The positions of the list, each in one of three places.
  ghost predicate CountInv(b: Batch) {
    && (b.phase != Answered ==> b.names == [] && b.data.pending == b.data.completions == 0)
    && b.waiting.Keys !! b.changed && b.waiting.Keys !! b.silent && b.changed !! b.silent
    && (forall k :: k in b.waiting || k in b.changed || k in b.silent <==> 0 <= k < |b.names|)
    && b.data.pending == |b.waiting| + |b.silent|
    && b.data.completions == (if b.phase == Answered && b.data.pending == 0 then 1 else 0)
  }

  ghost predicate TargetInv(w: World, b: Batch) {
    forall k :: k in b.waiting && k < |b.names| ==> Known(w, b.waiting[k]) && Find(w, b.waiting[k]).name == b.names[k]
  }

  function ColdCompletions(c: Cycle): nat {
    if c.cold.Some? && c.cold.value < |c.batches| then c.batches[c.cold.value].data.completions else 0
  }

  ghost predicate WarmInv(c: Cycle) {
    && (c.cold.Some? ==> c.cold.value < |c.batches|)
    && (forall b :: 0 <= b < |c.batches| ==> (c.batches[b].data.ignoreLocks <==> c.cold == Some(b)))
    && |c.batches| + (if c.delayed then 1 else 0) <= c.uevents + ColdCompletions(c) + (if c.cold.Some? then 1 else 0)
  }

  ghost predicate Inv(c: Cycle) {
    && Displacement.Inv(c.world)
    && WarmInv(c)
    && forall b :: 0 <= b < |c.batches| ==> CountInv(c.batches[b]) && TargetInv(c.world, c.batches[b])
  }

  function UpTo(n: nat): (r: set<nat>)
    ensures |r| == n && forall k :: k in r <==> 0 <= k < n
  {
    if n == 0 then {} else UpTo(n - 1) + {n - 1}
  }

  lemma NothingCounted(b: Batch)
    requires CountInv(b) && b.phase == Asked
    ensures b.changed == {} && b.silent == {} && b.waiting == map[]
  {
    assert forall k :: k !in b.waiting && k !in b.changed && k !in b.silent;
  }

  lemma TakeListCounts(b: Batch, names: seq<string>, failed: set<nat>)
    requires CountInv(b) && b.phase == Asked
    ensures CountInv(TakeList(b, names, failed))
  {
    var a := TakeList(b, names, failed);
    NothingCounted(b);
    TakenPositions(a.waiting, a.silent, |names|);
  }

  lemma TakenPositions(waiting: map<nat, Target>, silent: set<nat>, n: nat)
    requires waiting.Keys !! silent && forall k :: k in waiting || k in silent <==> 0 <= k < n
    ensures |waiting| + |silent| == n
  {
    assert waiting.Keys + silent == UpTo(n);
    assert |waiting.Keys + silent| == |waiting.Keys| + |silent| && |waiting| == |waiting.Keys|;
  }

  lemma TakeReplyCounts(b: Batch, k: nat, change: bool)
    requires CountInv(b) && k in b.waiting
    ensures CountInv(TakeReply(b, k, change))
  {
    var a := TakeReply(b, k, change);
    assert a.waiting.Keys == b.waiting.Keys - {k};
    assert |a.waiting| == |a.waiting.Keys| && |b.waiting| == |b.waiting.Keys|;
    assert |b.silent + {k}| == |b.silent| + 1;
    assert b.phase == Answered;
  }

  lemma FollowCounts(b: Batch, gone: seq<string>, dead: nat)
    requires CountInv(b)
    ensures CountInv(Follow(b, gone, dead))
  {
    var a := Follow(b, gone, dead);
    assert a.waiting.Keys == b.waiting.Keys;
    assert |a.waiting| == |a.waiting.Keys| && |b.waiting| == |b.waiting.Keys|;
  }

  // Where a list reply leaves the groups, by name.
  ghost predicate Relocates(w: World, w': World, names: seq<string>, gone: seq<string>) {
    && |w'.dead| == |w.dead| + |gone|
    && (forall i :: 0 <= i < |w.dead| ==> w'.dead[i] == w.dead[i])
    && (forall i :: 0 <= i < |gone| ==> gone[i] in w.live && w'.dead[|w.dead| + i].name == w.live[gone[i]].name && !w'.dead[|w.dead| + i].ended)
    && (forall n :: n in w.live && n !in gone ==> n in w'.live)
    && (forall n :: n in names ==> n in w'.live)
  }

  lemma ListedRelocates(w: World, names: seq<string>, gone: seq<string>, failed: set<nat>)
    requires Displacement.Inv(w) && MirrorState.Enabled(w, List(names, gone, failed))
    ensures Relocates(w, Displacement.Step(w, List(names, gone, failed)), names, gone)
  {
    Displacement.RemoveAllKeepsDead(w, gone);
    Displacement.EnsureAllKeepsInv(RemoveAll(w, gone).live, names, failed);
    RetiredNames(w, gone);
  }

  lemma RetiredNames(w: World, gone: seq<string>)
    requires Displacement.Inv(w) && NoRepeats(gone) && forall n :: n in gone ==> n in w.live
    ensures var dead := RemoveAll(w, gone).dead;
            && |dead| == |w.dead| + |gone|
            && (forall i :: 0 <= i < |w.dead| ==> dead[i] == w.dead[i])
            && (forall i :: 0 <= i < |gone| ==>
                  gone[i] in w.live && dead[|w.dead| + i].name == w.live[gone[i]].name && !dead[|w.dead| + i].ended)
  {
    MirrorTheorems.RemoveAllDead(w, gone);
    forall i | 0 <= i < |gone|
      ensures gone[i] in w.live && !w.live[gone[i]].ended
    {
      assert gone[i] in gone && Displacement.GroupInv(gone[i], w.live[gone[i]]);
    }
  }

  lemma MovedFinds(w: World, w': World, t: Target, names: seq<string>, gone: seq<string>)
    requires Displacement.Inv(w) && Displacement.Inv(w') && Known(w, t) && Relocates(w, w', names, gone)
    ensures var t' := Moved(t, gone, |w.dead|); Known(w', t') && Find(w', t').name == Find(w, t).name
  {
    if t.Live? {
      LiveIsNamed(w, t.name);
      LiveIsNamed(w', t.name);
      LiveFinds(w, w', t.name, names, gone);
    }
  }

  lemma LiveIsNamed(w: World, n: string)
    requires Displacement.Inv(w)
    ensures n in w.live ==> w.live[n].name == n
  {
    assert n in w.live ==> Displacement.GroupInv(n, w.live[n]);
  }

  lemma LiveFinds(w: World, w': World, n: string, names: seq<string>, gone: seq<string>)
    requires n in w.live && Relocates(w, w', names, gone) && (n in w'.live ==> w'.live[n].name == w.live[n].name)
    ensures var t' := Moved(Live(n), gone, |w.dead|); Known(w', t') && Find(w', t').name == w.live[n].name
  {
  }

  lemma OldTargets(w: World, w': World, b: Batch, names: seq<string>, gone: seq<string>)
    requires Displacement.Inv(w) && Displacement.Inv(w') && TargetInv(w, b) && Relocates(w, w', names, gone)
    ensures TargetInv(w', Follow(b, gone, |w.dead|))
  {
    forall k | k in b.waiting && k < |b.names|
      ensures var t' := Moved(b.waiting[k], gone, |w.dead|); Known(w', t') && Find(w', t').name == b.names[k]
    {
      MovedFinds(w, w', b.waiting[k], names, gone);
    }
  }

  lemma NewTargets(w: World, w': World, b: Batch, names: seq<string>, gone: seq<string>, failed: set<nat>)
    requires Displacement.Inv(w') && Relocates(w, w', names, gone)
    ensures TargetInv(w', TakeList(b, names, failed))
  {
    forall k: nat | k < |names|
      ensures names[k] in w'.live && w'.live[names[k]].name == names[k]
    {
      assert names[k] in names;
      assert Displacement.GroupInv(names[k], w'.live[names[k]]);
    }
  }

  lemma StoreKeepsTargets(w: World, t: Target, g: Group, b: Batch)
    requires TargetInv(w, b) && Known(w, t) && g.name == Find(w, t).name && g.ended == Find(w, t).ended
    ensures TargetInv(Store(w, t, g), b)
  {
  }

  lemma UpdatedKeepsName(g: Group, reply: Reply)
    ensures Updated(g, reply).name == g.name && Updated(g, reply).ended == g.ended
  {
  }

  // A target depends on the groups only.
  lemma BlocksDoNotMatter(w: World, w': World, b: Batch)
    requires TargetInv(w, b) && w'.live == w.live && w'.dead == w.dead
    ensures TargetInv(w', b)
  {
  }

  lemma ListKeepsInv(c: Cycle, b: nat, names: seq<string>, gone: seq<string>, failed: set<nat>)
    requires Inv(c) && Enabled(c, ListReply(b, names, gone, failed))
    ensures Inv(Step(c, ListReply(b, names, gone, failed)))
  {
    Displacement.InvStep(c.world, List(names, gone, failed));
    ListedRelocates(c.world, names, gone, failed);
    ListKeepsWarm(c, b, names, gone, failed);
    forall i | 0 <= i < |c.batches|
      ensures var c' := Step(c, ListReply(b, names, gone, failed));
              CountInv(c'.batches[i]) && TargetInv(c'.world, c'.batches[i])
    {
      ListedBatch(c, b, names, gone, failed, i);
      ListKeepsBatch(c.world, Displacement.Step(c.world, List(names, gone, failed)), c.batches[i], names, gone, failed);
    }
  }

  lemma ListedBatch(c: Cycle, b: nat, names: seq<string>, gone: seq<string>, failed: set<nat>, i: nat)
    requires Enabled(c, ListReply(b, names, gone, failed)) && i < |c.batches|
    ensures var c' := Step(c, ListReply(b, names, gone, failed));
            && c'.world == Displacement.Step(c.world, List(names, gone, failed)) && |c'.batches| == |c.batches|
            && c'.batches[i] == if i == b then TakeList(c.batches[b], names, failed)
                                else Follow(c.batches[i], gone, |c.world.dead|)
  {
  }

  lemma ListKeepsBatch(w: World, w': World, b: Batch, names: seq<string>, gone: seq<string>, failed: set<nat>)
    requires Displacement.Inv(w) && Displacement.Inv(w') && Relocates(w, w', names, gone)
    requires CountInv(b) && TargetInv(w, b)
    ensures var a := Follow(b, gone, |w.dead|); CountInv(a) && TargetInv(w', a)
    ensures b.phase == Asked ==> var a := TakeList(b, names, failed); CountInv(a) && TargetInv(w', a)
  {
    FollowCounts(b, gone, |w.dead|);
    OldTargets(w, w', b, names, gone);
    if b.phase == Asked {
      TakeListCounts(b, names, failed);
      NewTargets(w, w', b, names, gone, failed);
    }
  }

  lemma ListKeepsWarm(c: Cycle, b: nat, names: seq<string>, gone: seq<string>, failed: set<nat>)
    requires WarmInv(c) && Enabled(c, ListReply(b, names, gone, failed)) && c.batches[b].data.completions == 0
    ensures WarmInv(Step(c, ListReply(b, names, gone, failed)))
  {
  }

  lemma ShownKeepsTargets(w: World, t: Target, reply: Reply, b: Batch)
    requires Displacement.Inv(w) && TargetInv(w, b) && Known(w, t)
    ensures TargetInv(Displacement.Step(w, Show(t, reply)), b)
  {
    Displacement.InvStep(w, Show(t, reply));
    var w' := Displacement.Step(w, Show(t, reply));
    if t.Live? {
      Collisions.StepInfo(w, Show(t, reply));
      SameNames(w, w', b);
    } else {
      UpdatedKeepsName(Find(w, t), reply);
      StoreKeepsTargets(w, t, Updated(Find(w, t), reply), b);
      BlocksDoNotMatter(Store(w, t, Updated(Find(w, t), reply)), w', b);
    }
  }

  lemma SameNames(w: World, w': World, b: Batch)
    requires Displacement.Inv(w) && Displacement.Inv(w') && TargetInv(w, b)
    requires w'.live.Keys == w.live.Keys && w'.dead == w.dead
    ensures TargetInv(w', b)
  {
    forall k | k in b.waiting && k < |b.names|
      ensures Known(w', b.waiting[k]) && Find(w', b.waiting[k]).name == b.names[k]
    {
      assert Known(w, b.waiting[k]);
      if b.waiting[k].Live? {
        LiveIsNamed(w, b.waiting[k].name);
        LiveIsNamed(w', b.waiting[k].name);
      }
    }
  }

  lemma ShowKeepsInv(c: Cycle, b: nat, k: nat, reply: Reply)
    requires Inv(c) && Enabled(c, ShowReply(b, k, reply))
    ensures Inv(Step(c, ShowReply(b, k, reply)))
  {
    var t := c.batches[b].waiting[k];
    Displacement.InvStep(c.world, Show(t, reply));
    ShowKeepsWarm(c, b, k, reply);
    forall i | 0 <= i < |c.batches|
      ensures var c' := Step(c, ShowReply(b, k, reply));
              CountInv(c'.batches[i]) && TargetInv(c'.world, c'.batches[i])
    {
      ShowKeepsBatch(c, b, k, reply, i);
    }
  }

  lemma ShowKeepsBatch(c: Cycle, b: nat, k: nat, reply: Reply, i: nat)
    requires Displacement.Inv(c.world) && Enabled(c, ShowReply(b, k, reply)) && i < |c.batches|
    requires CountInv(c.batches[i]) && TargetInv(c.world, c.batches[i])
    ensures var c' := Step(c, ShowReply(b, k, reply));
            CountInv(c'.batches[i]) && TargetInv(c'.world, c'.batches[i])
  {
    var t := c.batches[b].waiting[k];
    ShownKeepsTargets(c.world, t, reply, c.batches[i]);
    if i == b {
      TakeReplyCounts(c.batches[b], k, IsChange(Find(c.world, t), reply));
    }
  }

  lemma ShowKeepsWarm(c: Cycle, b: nat, k: nat, reply: Reply)
    requires WarmInv(c) && Enabled(c, ShowReply(b, k, reply))
    ensures WarmInv(Step(c, ShowReply(b, k, reply)))
  {
  }

  lemma FreedKeepsTargets(c: Cycle, index: nat, i: nat)
    requires Enabled(c, Other(LastUnref(index))) && i < |c.batches| && TargetInv(c.world, c.batches[i])
    ensures TargetInv(Displacement.Step(c.world, LastUnref(index)), c.batches[i])
  {
    assert Dead(index) !in c.batches[i].waiting.Values;
    assert forall k :: k in c.batches[i].waiting ==> c.batches[i].waiting[k] in c.batches[i].waiting.Values;
  }

  lemma OtherKeepsInv(c: Cycle, m: MirrorState.Event)
    requires Inv(c) && Enabled(c, Other(m))
    ensures Inv(Step(c, Other(m)))
  {
    var c' := Step(c, Other(m));
    Displacement.InvStep(c.world, m);
    forall i | 0 <= i < |c.batches|
      ensures TargetInv(c'.world, c.batches[i])
    {
      if m.Poll? {
        StoreKeepsTargets(c.world, m.target, Polled(Find(c.world, m.target), m.info), c.batches[i]);
      } else if m.LastUnref? {
        FreedKeepsTargets(c, m.index, i);
      } else {
        BlocksDoNotMatter(c.world, c'.world, c.batches[i]);
      }
    }
  }

  lemma InvStep(c: Cycle, e: Event)
    requires Inv(c) && Enabled(c, e)
    ensures Inv(Step(c, e))
  {
    match e
    case StartUp => QuietKeepsInv(c, e);
    case Uevent => QuietKeepsInv(c, e);
    case TimerFires => QuietKeepsInv(c, e);
    case ListFails(_) => QuietKeepsInv(c, e);
    case ListReply(b, names, gone, failed) => ListKeepsInv(c, b, names, gone, failed);
    case ShowReply(b, k, reply) => ShowKeepsInv(c, b, k, reply);
    case Other(m) => OtherKeepsInv(c, m);
  }

  lemma NewBatchCounts(ignoreLocks: bool, w: World)
    ensures CountInv(NewBatch(ignoreLocks)) && TargetInv(w, NewBatch(ignoreLocks))
  {
  }

  lemma AddedKeepsInv(c: Cycle, e: Event)
    requires Inv(c) && Enabled(c, e) && (e.StartUp? || e.TimerFires?)
    ensures Inv(Step(c, e))
  {
    NewBatchCounts(e.StartUp?, c.world);
  }

  lemma LostKeepsInv(c: Cycle, b: nat)
    requires Inv(c) && Enabled(c, ListFails(b))
    ensures Inv(Step(c, ListFails(b)))
  {
    var u := c.batches[b];
    assert CountInv(u) && TargetInv(c.world, u);
    assert CountInv(u.(phase := Lost));
  }

  lemma UeventKeepsInv(c: Cycle)
    requires Inv(c) && Enabled(c, Uevent)
    ensures Inv(Step(c, Uevent))
  {
  }

  // Events that leave the world alone.
  lemma QuietKeepsInv(c: Cycle, e: Event)
    requires Inv(c) && Enabled(c, e) && (e.StartUp? || e.Uevent? || e.TimerFires? || e.ListFails?)
    ensures Inv(Step(c, e))
  {
    if e.ListFails? {
      LostKeepsInv(c, e.b);
    } else if e.Uevent? {
      UeventKeepsInv(c);
    } else {
      AddedKeepsInv(c, e);
    }
  }

  lemma {:induction false} InvAlways(states: seq<Cycle>, events: seq<Event>, j: nat)
    requires IsRun(states, events) && j < |states|
    ensures Inv(states[j])
  {
    if j > 0 {
      InvAlways(states, events, j - 1);
      InvStep(states[j - 1], events[j - 1]);
    }
  }

  // --- What the barrier is for ------------------------------------------------------------

  // The answer for position k of update b, at a moment where it is a change to its group.
  ghost predicate GivesChange(c: Cycle, e: Event, b: nat, k: nat) {
    && e.ShowReply? && e.b == b && e.k == k && Enabled(c, e)
    && IsChange(Find(c.world, c.batches[b].waiting[k]), e.reply)
  }

  ghost predicate WasChange(states: seq<Cycle>, events: seq<Event>, j: nat, b: nat, k: nat)
    requires j <= |events| && j <= |states|
  {
    exists i :: 0 <= i < j && GivesChange(states[i], events[i], b, k)
  }

  lemma ChangedStep(c: Cycle, e: Event, b: nat, k: nat)
    requires Inv(c) && Enabled(c, e) && b < |Step(c, e).batches|
    ensures b < |c.batches| ==>
              (k in Step(c, e).batches[b].changed <==> k in c.batches[b].changed || GivesChange(c, e, b, k))
    ensures b >= |c.batches| ==> Step(c, e).batches[b].changed == {} && !GivesChange(c, e, b, k)
  {
    if e.ListReply? && e.b == b {
      assert CountInv(c.batches[b]);
      assert k !in c.batches[b].changed;
    }
  }

  lemma {:induction false} ChangedMeans(states: seq<Cycle>, events: seq<Event>, j: nat, b: nat, k: nat)
    requires IsRun(states, events) && j < |states| && b < |states[j].batches|
    ensures k in states[j].batches[b].changed <==> WasChange(states, events, j, b, k)
  {
    if j > 0 {
      InvAlways(states, events, j - 1);
      ChangedStep(states[j - 1], events[j - 1], b, k);
      if b < |states[j - 1].batches| {
        ChangedMeans(states, events, j - 1, b, k);
      } else {
        BatchesGrow(states, events, j - 1, b, k);
      }
    }
  }

  lemma {:induction false} BatchesGrow(states: seq<Cycle>, events: seq<Event>, j: nat, b: nat, k: nat)
    requires IsRun(states, events) && j < |states| && b >= |states[j].batches|
    ensures forall i :: 0 <= i < j ==> !GivesChange(states[i], events[i], b, k)
  {
    if j > 0 {
      BatchesGrow(states, events, j - 1, b, k);
    }
  }

  /** The barrier, exactly: an update completes at most once, and it has completed if and only
      if its list has come and every listed position was answered by a change to its group.
      While it has not, nothing still waiting refers to data that is gone. */
  lemma Barrier(states: seq<Cycle>, events: seq<Event>, j: nat, b: nat)
    requires IsRun(states, events) && j < |states| && b < |states[j].batches|
    ensures var u := states[j].batches[b];
            && u.data.pending >= 0 && u.data.completions <= 1
            && (u.data.completions == 1 <==>
                  u.phase == Answered &&
                  forall k :: 0 <= k < |u.names| ==> WasChange(states, events, j, b, k))
            && (u.waiting != map[] ==> u.data.completions == 0)
  {
    InvAlways(states, events, j);
    var u := states[j].batches[b];
    assert CountInv(u);
    forall k: nat | k < |u.names|
      ensures k in u.changed <==> WasChange(states, events, j, b, k)
    {
      ChangedMeans(states, events, j, b, k);
    }
    if u.phase == Answered && u.data.completions == 0 {
      assert u.waiting != map[] || u.silent != {};
      var k :| k in u.waiting || k in u.silent;
      assert 0 <= k < |u.names| && k !in u.changed;
    } else if u.phase == Answered {
      assert u.waiting == map[] && u.silent == {};
      assert forall k :: 0 <= k < |u.names| ==> k in u.changed;
    }
  }

  lemma SilentStays(c: Cycle, e: Event, b: nat, k: nat)
    requires Inv(c) && Enabled(c, e) && b < |c.batches| && k in c.batches[b].silent
    ensures b < |Step(c, e).batches| && k in Step(c, e).batches[b].silent
  {
    if e.ListReply? && e.b == b { NothingCounted(c.batches[b]); }
  }

  lemma SilentIsOpen(u: Batch, k: nat)
    requires CountInv(u) && k in u.silent
    ensures u.data.completions == 0
  {
    assert |u.silent| > 0;
  }

  lemma {:induction false} SilentAlways(states: seq<Cycle>, events: seq<Event>, i: nat, j: nat, b: nat, k: nat)
    requires IsRun(states, events) && i <= j < |states| && b < |states[i].batches| && k in states[i].batches[b].silent
    ensures b < |states[j].batches| && k in states[j].batches[b].silent
  {
    if i < j {
      SilentAlways(states, events, i, j - 1, b, k);
      InvAlways(states, events, j - 1);
      SilentStays(states[j - 1], events[j - 1], b, k);
    }
  }

  /** An update that got an answer which was no change to its group never completes. */
  lemma SilentForGood(states: seq<Cycle>, events: seq<Event>, i: nat, j: nat, b: nat, k: nat)
    requires IsRun(states, events) && i <= j < |states| && b < |states[i].batches| && k in states[i].batches[b].silent
    ensures b < |states[j].batches| && states[j].batches[b].data.completions == 0
  {
    SilentAlways(states, events, i, j, b, k);
    InvAlways(states, events, j);
    SilentIsOpen(states[j].batches[b], k);
  }

  /** Every answer that is still awaited will reach the object it was asked for, even if that
      was disposed in the meantime, and it has the listed name. */
  lemma AnswersArrive(states: seq<Cycle>, events: seq<Event>, j: nat, b: nat, k: nat, reply: Reply)
    requires IsRun(states, events) && j < |states| && b < |states[j].batches| && k in states[j].batches[b].waiting
    ensures Enabled(states[j], ShowReply(b, k, reply)) && k < |states[j].batches[b].names|
    ensures var c := states[j]; Find(c.world, c.batches[b].waiting[k]).name == c.batches[b].names[k]
  {
    InvAlways(states, events, j);
    assert CountInv(states[j].batches[b]) && TargetInv(states[j].world, states[j].batches[b]);
  }

  lemma ExtendMirror(ws: seq<World>, es: seq<MirrorState.Event>, m: MirrorState.Event)
    requires Displacement.IsRun(ws, es) && MirrorState.Enabled(ws[|es|], m)
    ensures Displacement.IsRun(ws + [Displacement.Step(ws[|es|], m)], es + [m])
  {
  }

  /** The world of these runs is that of a run of the daemon's mirror: what is proved there, and
      by `Collisions.ApartRuns` in `MirrorRuns` and on, holds here. */
  lemma {:induction false} WorldIsMirror(states: seq<Cycle>, events: seq<Event>, j: nat)
    returns (ws: seq<World>, es: seq<MirrorState.Event>)
    requires IsRun(states, events) && j < |states|
    ensures Displacement.IsRun(ws, es) && ws[|ws| - 1] == states[j].world
  {
    if j == 0 {
      ws, es := [EMPTY], [];
    } else {
      ws, es := WorldIsMirror(states, events, j - 1);
      var c, e := states[j - 1], events[j - 1];
      if e.ListReply? || e.ShowReply? || e.Other? {
        var m := if e.ListReply? then List(e.names, e.gone, e.failed)
                 else if e.ShowReply? then Show(c.batches[e.b].waiting[e.k], e.reply) else e.event;
        ExtendMirror(ws, es, m);
        ws, es := ws + [Displacement.Step(c.world, m)], es + [m];
      }
    }
  }

  // --- Coldplug ---------------------------------------------------------------------------

  /** Warmplugs started or due are no more than uevents and completed coldplugs together, so
      none schedules another. */
  lemma Warmplugs(states: seq<Cycle>, events: seq<Event>, j: nat)
    requires IsRun(states, events) && j < |states|
    ensures var c := states[j];
            |c.batches| - (if c.cold.Some? then 1 else 0) + (if c.delayed then 1 else 0) <=
              c.uevents + ColdCompletions(c) <= c.uevents + 1
  {
    InvAlways(states, events, j);
    var c := states[j];
    if c.cold.Some? { assert CountInv(c.batches[c.cold.value]); }
  }

  /** A timer is set by nothing but a uevent and the completion of coldplug, which always
      sets one. */
  lemma WhoSchedules(c: Cycle, e: Event)
    requires Inv(c) && Enabled(c, e)
    ensures var d := Step(c, e);
            && (ColdCompletions(d) > ColdCompletions(c) ==> d.delayed)
            && (!c.delayed && d.delayed ==> e == Uevent || ColdCompletions(d) > ColdCompletions(c))
  {
  }

  lemma DelayedUntilStarted(c: Cycle, e: Event, n: nat)
    requires Enabled(c, e) && (c.delayed || |c.batches| > n) && |c.batches| >= n
    ensures Step(c, e).delayed || |Step(c, e).batches| > n
    ensures |Step(c, e).batches| >= n
  {
  }

  /** Once coldplug has completed, its warmplug is due, or an update was started after it. */
  lemma {:induction false} WarmplugFollows(states: seq<Cycle>, events: seq<Event>, i: nat, j: nat)
    requires IsRun(states, events) && i < j < |states|
    requires ColdCompletions(states[i]) == 0 && ColdCompletions(states[i + 1]) == 1
    ensures states[j].delayed || |states[j].batches| > |states[i + 1].batches|
    ensures |states[j].batches| >= |states[i + 1].batches|
  {
    if i + 1 < j {
      WarmplugFollows(states, events, i, j - 1);
      DelayedUntilStarted(states[j - 1], events[j - 1], |states[i + 1].batches|);
    } else {
      InvAlways(states, events, i);
      WhoSchedules(states[i], events[i]);
    }
  }

  /** After a uevent an update is due, or one was started since. */
  lemma {:induction false} UeventIsFollowed(states: seq<Cycle>, events: seq<Event>, i: nat, j: nat)
    requires IsRun(states, events) && i < j < |states| && events[i] == Uevent
    ensures states[j].delayed || |states[j].batches| > |states[i + 1].batches|
    ensures |states[j].batches| >= |states[i + 1].batches|
  {
    if i + 1 < j {
      UeventIsFollowed(states, events, i, j - 1);
      DelayedUntilStarted(states[j - 1], events[j - 1], |states[i + 1].batches|);
    }
  }

  // No update but b has come to the groups.
  ghost predicate Alone(c: Cycle, b: nat) {
    forall i :: 0 <= i < |c.batches| && i != b ==> c.batches[i].phase != Answered
  }

  // Nobody has described this group yet.
  predicate IsFresh(w: World, t: Target, n: string) {
    t == Live(n) && n in w.live && w.live[n].info.None?
  }

  ghost predicate FreshInv(c: Cycle, b: nat) {
    if b < |c.batches| && c.batches[b].phase == Answered then
      NoRepeats(c.batches[b].names) ==>
        forall k :: k in c.batches[b].waiting && k < |c.batches[b].names| ==>
          IsFresh(c.world, c.batches[b].waiting[k], c.batches[b].names[k])
    else c.world.live == map[] && c.world.dead == []
  }

  lemma FirstIsMember(s: seq<string>)
    ensures s != [] ==> s[0] in s
  {
  }

  // The first list makes groups that nobody has described.
  lemma FirstListInfo(w: World, names: seq<string>, gone: seq<string>, failed: set<nat>)
    requires Displacement.Inv(w) && w.live == map[] && MirrorState.Enabled(w, List(names, gone, failed))
    ensures var live := Displacement.Step(w, List(names, gone, failed)).live;
            forall n :: n in names ==> n in live && live[n].info.None?
  {
    FirstIsMember(gone);
    MirrorRuns.AddGroupsFacts(map[], names, failed);
    Collisions.StepInfo(w, List(names, gone, failed));
    assert RemoveAll(w, gone).live == map[];
  }

  lemma FirstListIsFresh(c: Cycle, b: nat, names: seq<string>, gone: seq<string>, failed: set<nat>)
    requires Inv(c) && FreshInv(c, b) && Enabled(c, ListReply(b, names, gone, failed))
    ensures FreshInv(Step(c, ListReply(b, names, gone, failed)), b)
  {
    FirstListInfo(c.world, names, gone, failed);
    ListedBatch(c, b, names, gone, failed, b);
    assert forall k: nat :: k < |names| ==> names[k] in names;
  }

  lemma OnlyItsAnswers(c: Cycle, b: nat, e: Event)
    requires Inv(c) && Alone(c, b) && Enabled(c, e) && e.ShowReply?
    ensures e.b == b && c.batches[b].phase == Answered && e.k < |c.batches[b].names|
  {
    assert CountInv(c.batches[e.b]);
  }

  lemma AnswerKeepsFresh(c: Cycle, b: nat, k: nat, reply: Reply)
    requires Inv(c) && Alone(c, b) && FreshInv(c, b) && Enabled(c, ShowReply(b, k, reply))
    ensures FreshInv(Step(c, ShowReply(b, k, reply)), b)
  {
    OnlyItsAnswers(c, b, ShowReply(b, k, reply));
    var u := c.batches[b];
    if NoRepeats(u.names) {
      assert IsFresh(c.world, u.waiting[k], u.names[k]);
      assert CountInv(u);
      forall i | i in u.waiting && i != k
        ensures IsFresh(Displacement.Step(c.world, Show(u.waiting[k], reply)), u.waiting[i], u.names[i])
      {
        assert IsFresh(c.world, u.waiting[i], u.names[i]);
        OthersStayFresh(c.world, u.names[k], reply, u.names[i]);
      }
    }
  }

  lemma OthersStayFresh(w: World, n: string, reply: Reply, m: string)
    requires Displacement.Inv(w) && n in w.live && m != n && IsFresh(w, Live(m), m)
    ensures IsFresh(Displacement.Step(w, Show(Live(n), reply)), Live(m), m)
  {
    Collisions.StepInfo(w, Show(Live(n), reply));
  }

  lemma OtherKeepsFresh(c: Cycle, b: nat, m: MirrorState.Event)
    requires Inv(c) && FreshInv(c, b) && Enabled(c, Other(m))
    ensures FreshInv(Step(c, Other(m)), b)
  {
    if b < |c.batches| && c.batches[b].phase == Answered && NoRepeats(c.batches[b].names) {
      var u := c.batches[b];
      forall k | k in u.waiting && k < |u.names|
        ensures IsFresh(Displacement.Step(c.world, m), u.waiting[k], u.names[k])
      {
        assert IsFresh(c.world, u.waiting[k], u.names[k]);
      }
    }
  }

  lemma FreshStep(c: Cycle, b: nat, e: Event)
    requires Inv(c) && FreshInv(c, b) && Enabled(c, e) && Alone(c, b) && Alone(Step(c, e), b)
    ensures FreshInv(Step(c, e), b)
  {
    match e
    case StartUp =>
    case Uevent =>
    case TimerFires =>
    case ListFails(_) =>
    case ListReply(i, names, gone, failed) =>
      assert Step(c, e).batches[i].phase == Answered;
      FirstListIsFresh(c, b, names, gone, failed);
    case ShowReply(i, k, reply) =>
      OnlyItsAnswers(c, b, e);
      AnswerKeepsFresh(c, b, k, reply);
    case Other(m) => OtherKeepsFresh(c, b, m);
  }

  lemma {:induction false} FreshAlways(states: seq<Cycle>, events: seq<Event>, j: nat, b: nat)
    requires IsRun(states, events) && j < |states| && Alone(states[j], b)
    ensures FreshInv(states[j], b)
    ensures j > 0 ==> Alone(states[j - 1], b)
  {
    if j > 0 {
      InvAlways(states, events, j - 1);
      PhasesStay(states[j - 1], events[j - 1]);
      FreshAlways(states, events, j - 1, b);
      FreshStep(states[j - 1], b, events[j - 1]);
    }
  }

  lemma PhasesStay(c: Cycle, e: Event)
    requires Enabled(c, e)
    ensures var d := Step(c, e);
            |c.batches| <= |d.batches| &&
            forall i :: 0 <= i < |c.batches| && c.batches[i].phase == Answered ==>
              d.batches[i].phase == Answered && d.batches[i].names == c.batches[i].names
  {
  }

  predicate Described(e: Event, b: nat, k: nat) {
    e.ShowReply? && e.b == b && e.k == k && e.reply.Success?
  }

  ghost predicate WasDescribed(events: seq<Event>, j: nat, b: nat, k: nat)
    requires j <= |events|
  {
    exists i :: 0 <= i < j && Described(events[i], b, k)
  }

  lemma {:induction false} AloneBefore(states: seq<Cycle>, events: seq<Event>, i: nat, j: nat, b: nat)
    requires IsRun(states, events) && i <= j < |states| && Alone(states[j], b)
    ensures Alone(states[i], b)
    ensures b < |states[i].batches| && states[i].batches[b].phase == Answered ==>
              b < |states[j].batches| && states[j].batches[b].phase == Answered &&
              states[j].batches[b].names == states[i].batches[b].names
  {
    if i < j {
      PhasesStay(states[j - 1], events[j - 1]);
      AloneBefore(states, events, i, j - 1, b);
    }
  }

  lemma DescribedIsChange(states: seq<Cycle>, events: seq<Event>, i: nat, j: nat, b: nat)
    requires IsRun(states, events) && i < j < |states| && Alone(states[j], b)
    requires b < |states[j].batches| && NoRepeats(states[j].batches[b].names)
    ensures forall k :: 0 <= k < |states[j].batches[b].names| ==>
              (GivesChange(states[i], events[i], b, k) <==> Described(events[i], b, k))
  {
    AloneBefore(states, events, i, j, b);
    InvAlways(states, events, i);
    FreshAlways(states, events, i, b);
    FirstDescription(states[i], events[i], b, states[j].batches[b].names);
  }

  lemma FirstDescription(c: Cycle, e: Event, b: nat, names: seq<string>)
    requires Inv(c) && Enabled(c, e) && Alone(c, b) && FreshInv(c, b) && NoRepeats(names)
    requires b < |c.batches| && c.batches[b].phase == Answered ==> c.batches[b].names == names
    ensures forall k :: 0 <= k < |names| ==> (GivesChange(c, e, b, k) <==> Described(e, b, k))
  {
    if e.ShowReply? {
      OnlyItsAnswers(c, b, e);
      assert IsFresh(c.world, c.batches[b].waiting[e.k], names[e.k]);
    }
  }

  /** Coldplug on distinct names, as long as no other update has reached the groups: it has
      completed exactly if the list has come and every group's helper succeeded. */
  lemma ColdplugCompletes(states: seq<Cycle>, events: seq<Event>, j: nat, b: nat)
    requires IsRun(states, events) && j < |states| && b < |states[j].batches| && Alone(states[j], b)
    requires NoRepeats(states[j].batches[b].names)
    ensures var u := states[j].batches[b];
            u.data.completions == 1 <==>
              u.phase == Answered && forall k :: 0 <= k < |u.names| ==> WasDescribed(events, j, b, k)
  {
    var u := states[j].batches[b];
    Barrier(states, events, j, b);
    forall i | 0 <= i < j
      ensures forall k :: 0 <= k < |u.names| ==> (GivesChange(states[i], events[i], b, k) <==> Described(events[i], b, k))
    {
      DescribedIsChange(states, events, i, j, b);
    }
    forall k | 0 <= k < |u.names|
      ensures WasChange(states, events, j, b, k) <==> WasDescribed(events, j, b, k)
    {
      if WasChange(states, events, j, b, k) {
        var i :| 0 <= i < j && GivesChange(states[i], events[i], b, k);
        assert Described(events[i], b, k);
      }
      if WasDescribed(events, j, b, k) {
        var i :| 0 <= i < j && Described(events[i], b, k);
        assert GivesChange(states[i], events[i], b, k);
      }
    }
  }

  // --- A warmplug that never completes ----------------------------------------------------------

  const NOTHING := VgInfo(None, None, None, None, [], [], "")

  lemma Extend(states: seq<Cycle>, events: seq<Event>, e: Event)
    requires IsRun(states, events) && Enabled(states[|events|], e)
    ensures IsRun(states + [Step(states[|events|], e)], events + [e])
  {
  }

  // An update from the uevent to the list, when there is nothing but the one group or none.
  lemma OneUpdate(c: Cycle, n: string)
    requires !c.delayed && c.world.live.Keys <= {n}
    requires n in c.world.live ==> c.world.live[n].name == n
    ensures var b := |c.batches|;
            var c1 := Step(c, Uevent);
            Enabled(c1, TimerFires) &&
            var c2 := Step(c1, TimerFires);
            Enabled(c2, ListReply(b, [n], [], {})) &&
            var c3 := Step(c2, ListReply(b, [n], [], {}));
            && |c3.batches| == b + 1 && c3.batches[b].phase == Answered && c3.batches[b].waiting == map[0 := Live(n)]
            && c3.world.live == (if n in c.world.live then c.world.live else map[n := NewGroup(n)]) && !c3.delayed
            && c3.batches[b].silent == {}
  {
    var w := c.world;
    assert RemoveAll(w, []) == w;
    assert [n][..0] == [] && Displacement.EnsureAll(w.live, [], {}) == w.live;
    assert Displacement.EnsureAll(w.live, [n], {}) == if n in w.live then w.live else map[n := NewGroup(n)];
    var a := TakeList(NewBatch(false), [n], {});
    assert a.waiting == map[0 := Live(n)];
  }

  lemma RunList(states: seq<Cycle>, events: seq<Event>, n: string) returns (states': seq<Cycle>, events': seq<Event>)
    requires IsRun(states, events)
    requires var c := states[|events|];
             !c.delayed && c.world.live.Keys <= {n} && (n in c.world.live ==> c.world.live[n].name == n)
    ensures IsRun(states', events')
    ensures var c, d, b := states[|events|], states'[|events'|], |states[|events|].batches|;
            && |d.batches| == b + 1 && !d.delayed && d.batches[b].waiting == map[0 := Live(n)] && d.batches[b].silent == {}
            && d.world.live == (if n in c.world.live then c.world.live else map[n := NewGroup(n)])
            && !d.batches[b].data.ignoreLocks
  {
    var c, b := states[|events|], |states[|events|].batches|;
    OneUpdate(c, n);
    Extend(states, events, Uevent);
    var c1 := Step(c, Uevent);
    Extend(states + [c1], events + [Uevent], TimerFires);
    var c2 := Step(c1, TimerFires);
    var e := ListReply(b, [n], [], {});
    Extend(states + [c1] + [c2], events + [Uevent] + [TimerFires], e);
    states', events' := states + [c1] + [c2] + [Step(c2, e)], events + [Uevent] + [TimerFires] + [e];
  }

  lemma RunAnswer(states: seq<Cycle>, events: seq<Event>, b: nat, n: string, r: VgInfo)
    returns (states': seq<Cycle>, events': seq<Event>)
    requires IsRun(states, events)
    requires var c := states[|events|];
             && b < |c.batches| && c.batches[b].waiting == map[0 := Live(n)] && c.batches[b].silent == {}
             && c.world.live.Keys == {n} && !c.delayed && !c.batches[b].data.ignoreLocks
    ensures IsRun(states', events')
    ensures var c, d := states[|events|], states'[|events'|];
            && |d.batches| == |c.batches| && !d.delayed && d.world.live.Keys == {n}
            && d.world.live[n].name == n && d.world.live[n].info == Some(r)
            && d.batches[b].waiting == map[] && d.batches[b].silent == if c.world.live[n].info == Some(r) then {0} else {}
  {
    var c, e := states[|events|], ShowReply(b, 0, Success(r));
    InvAlways(states, events, |events|);
    LastAnswer(c, b, n, r);
    Extend(states, events, e);
    states', events' := states + [Step(c, e)], events + [e];
  }

  lemma RunUpdate(states: seq<Cycle>, events: seq<Event>, n: string, r: VgInfo)
    returns (states': seq<Cycle>, events': seq<Event>)
    requires IsRun(states, events)
    requires var c := states[|events|];
             !c.delayed && c.world.live.Keys <= {n} && (n in c.world.live ==> c.world.live[n].name == n)
    ensures IsRun(states', events')
    ensures var c, d := states[|events|], states'[|events'|];
            var same := n in c.world.live && c.world.live[n].info == Some(r);
            && |d.batches| == |c.batches| + 1 && !d.delayed && d.world.live.Keys == {n}
            && d.world.live[n].name == n && d.world.live[n].info == Some(r)
            && d.batches[|c.batches|].waiting == map[] && d.batches[|c.batches|].silent == if same then {0} else {}
  {
    states', events' := RunList(states, events, n);
    states', events' := RunAnswer(states', events', |states[|events|].batches|, n, r);
  }

  lemma LastAnswer(c: Cycle, b: nat, n: string, r: VgInfo)
    requires Displacement.Inv(c.world)
    requires b < |c.batches| && c.batches[b].waiting == map[0 := Live(n)] && c.batches[b].silent == {}
    requires c.world.live.Keys == {n} && !c.delayed && !c.batches[b].data.ignoreLocks
    ensures Enabled(c, ShowReply(b, 0, Success(r)))
    ensures var d := Step(c, ShowReply(b, 0, Success(r)));
            && |d.batches| == |c.batches| && !d.delayed && d.world.live.Keys == {n}
            && d.world.live[n].name == n && d.world.live[n].info == Some(r)
            && d.batches[b].waiting == map[] && d.batches[b].silent == if c.world.live[n].info == Some(r) then {0} else {}
  {
    AnsweredWorld(c.world, n, r);
  }

  lemma AnsweredWorld(w: World, n: string, r: VgInfo)
    requires Displacement.Inv(w) && n in w.live
    ensures var w' := Displacement.Step(w, Show(Live(n), Success(r)));
            w'.live.Keys == w.live.Keys && w'.live[n].name == n && w'.live[n].info == Some(r)
  {
    var e := Show(Live(n), Success(r));
    Displacement.InvStep(w, e);
    Collisions.StepInfo(w, e);
    Collisions.UpdatedInfo(w.live[n], Success(r));
    LiveIsNamed(Displacement.Step(w, e), n);
  }

  /** Two uevents, and nothing changed in between: the second update repeats the description of
      the first, and by `SilentForGood` it never completes. */
  lemma RepetitionHangs(n: string) returns (states: seq<Cycle>, events: seq<Event>)
    ensures IsRun(states, events)
    ensures var c := states[|events|]; |c.batches| == 2 && c.batches[1].waiting == map[] && c.batches[1].silent == {0}
  {
    states, events := RunUpdate([START], [], n, NOTHING);
    states, events := RunUpdate(states, events, n, NOTHING);
  }
}
