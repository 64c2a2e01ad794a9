/** The poll protocol of a volume group (src/volumegroup.c, with the synchronous failure of
    src/daemon.c): requests arrive at any rate, helpers are started at most once a period,
    and only the helper started last may change the group. */
module Poll {
  import opened Wrappers

  const PERIOD := 5000

  /** What the main loop still has to call back: idle sources, timers with the time they are
      due, and helpers by process id, each with the number of the poll it was started for. */
  datatype MainLoop = MainLoop(
    now: int,
    lastId: nat,
    idles: set<nat>,
    timers: map<nat, int>,
    children: map<int, nat>)

  /** The group's poll fields, the references held for callbacks, and what happened so far:
      the times of starts, the numbers of applied polls, and whom each SIGINT went to
      (None for a process whose end was already reported). */
  datatype State = State(
    pollPid: int,
    pollTimeoutId: nat,
    pollRequested: bool,
    refs: int,
    loop: MainLoop,
    starts: seq<int>,
    applied: seq<nat>,
    signals: seq<Option<nat>>)

  /** `spawned` is the process id the system would give to a helper, None where starting
      one fails. */
  datatype Event =
    | Request
    | IdleRuns(id: nat, spawned: Option<int>)
    | TimerFires(id: nat, spawned: Option<int>)
    | ChildEnds(pid: int, success: bool)
    | TimePasses(ms: nat)

  const INITIAL := State(0, 0, false, 0, MainLoop(0, 0, {}, map[], map[]), [], [], [])

  predicate SpawnPossible(spawned: Option<int>, children: map<int, nat>) {
    spawned.Some? ==> spawned.value != 0 && spawned.value !in children
  }

  predicate Enabled(s: State, e: Event) {
    match e
    case Request => true
    case IdleRuns(id, spawned) => id in s.loop.idles && SpawnPossible(spawned, s.loop.children)
    case TimerFires(id, spawned) =>
      id in s.loop.timers && s.loop.timers[id] <= s.loop.now && SpawnPossible(spawned, s.loop.children)
    case ChildEnds(pid, _) => pid in s.loop.children
    case TimePasses(_) => true
  }

  // --- One callback -----------------------------------------------------------------------

  function Requested(s: State): State {
    var id := s.loop.lastId + 1;
    s.(refs := s.refs + 1, loop := s.loop.(lastId := id, idles := s.loop.idles + {id}))
  }

  // `result` is the poll whose answer it is, None on an error.
  function Answered(s: State, pid: int, result: Option<nat>): State {
    if pid != s.pollPid then s.(refs := s.refs - 1)
    else s.(pollPid := 0, refs := s.refs - 1,
            applied := if result.Some? then s.applied + [result.value] else s.applied)
  }

  function TimerAdded(s: State): State {
    var id := s.loop.lastId + 1;
    s.(pollTimeoutId := id, refs := s.refs + 1,
       loop := s.loop.(lastId := id, timers := s.loop.timers[id := s.loop.now + PERIOD]))
  }

  function Interrupted(s: State): State {
    if s.pollPid == 0 then s
    else if s.pollPid in s.loop.children then s.(signals := s.signals + [Some(s.loop.children[s.pollPid])])
    else s.(signals := s.signals + [None])
  }

  // A failure is answered before the caller has the process id.
  function Spawned(s: State, spawned: Option<int>): State {
    var t := s.(refs := s.refs + 1, starts := s.starts + [s.loop.now]);
    if spawned.None? then Answered(t, 0, None).(pollPid := 0)
    else t.(pollPid := spawned.value, loop := t.loop.(children := t.loop.children[spawned.value := |t.starts|]))
  }

  function Started(s: State, spawned: Option<int>): State {
    Spawned(Interrupted(TimerAdded(s)), spawned)
  }

  function Step(s: State, e: Event): State
    requires Enabled(s, e)
  {
    match e
    case Request => Requested(s)
    case IdleRuns(id, spawned) =>
      var t := s.(loop := s.loop.(idles := s.loop.idles - {id}));
      var u := if s.pollTimeoutId != 0 then t.(pollRequested := true) else Started(t, spawned);
      u.(refs := u.refs - 1)
    case TimerFires(id, spawned) =>
      var t := s.(pollTimeoutId := 0, loop := s.loop.(timers := s.loop.timers - {id}));
      var u := if s.pollRequested then Started(t.(pollRequested := false), spawned) else t;
      u.(refs := u.refs - 1)
    case ChildEnds(pid, success) =>
      var number := s.loop.children[pid];
      Answered(s.(loop := s.loop.(children := s.loop.children - {pid})), pid, if success then Some(number) else None)
    case TimePasses(ms) => s.(loop := s.loop.(now := s.loop.now + ms))
  }

  // --- The group --------------------------------------------------------------------------

  class StorageVolumeGroup {
    var pollPid: int
    var pollTimeoutId: nat
    var pollRequested: bool
    var refs: int
    var loop: MainLoop
    var starts: seq<int>
    var applied: seq<nat>
    var signals: seq<Option<nat>>

    ghost function View(): State
      reads this
    {
      State(pollPid, pollTimeoutId, pollRequested, refs, loop, starts, applied, signals)
    }

    constructor ()
      ensures View() == INITIAL
    {
      pollPid, pollTimeoutId, pollRequested, refs := 0, 0, false, 0;
      loop := MainLoop(0, 0, {}, map[], map[]);
      starts, applied, signals := [], [], [];
    }

    method Poll()
      modifies this
      ensures View() == Step(old(View()), Request)
    {
      refs := refs + 1;
      var id := loop.lastId + 1;
      loop := loop.(lastId := id, idles := loop.idles + {id});
    }

    method PollInMain(id: nat, spawned: Option<int>)
      requires Enabled(View(), IdleRuns(id, spawned))
      modifies this
      ensures View() == Step(old(View()), IdleRuns(id, spawned))
    {
      loop := loop.(idles := loop.idles - {id});
      if pollTimeoutId != 0 {
        pollRequested := true;
      } else {
        PollNow(spawned);
      }
      refs := refs - 1;
    }

    method PollTimeout(id: nat, spawned: Option<int>)
      requires Enabled(View(), TimerFires(id, spawned))
      modifies this
      ensures View() == Step(old(View()), TimerFires(id, spawned))
    {
      loop := loop.(timers := loop.timers - {id});
      pollTimeoutId := 0;
      if pollRequested {
        pollRequested := false;
        PollNow(spawned);
      }
      refs := refs - 1;
    }

    method PollNow(spawned: Option<int>)
      modifies this
      ensures View() == Started(old(View()), spawned)
    {
      refs := refs + 1;
      var id := loop.lastId + 1;
      loop := loop.(lastId := id, timers := loop.timers[id := loop.now + PERIOD]);
      pollTimeoutId := id;
      if pollPid != 0 {
        Interrupt(pollPid);
      }
      refs := refs + 1;
      pollPid := SpawnForVariant(spawned);
    }

    method Interrupt(pid: int)
      modifies this`signals
      ensures signals == old(signals) + [if pid in loop.children then Some(loop.children[pid]) else None]
    {
      signals := signals + [if pid in loop.children then Some(loop.children[pid]) else None];
    }

    method SpawnForVariant(spawned: Option<int>) returns (pid: int)
      modifies this
      ensures View().(pollPid := pid) == Spawned(old(View()).(refs := old(refs) - 1), spawned)
    {
      starts := starts + [loop.now];
      match spawned
      case None =>
        PollWithVariant(0, None);
        pid := 0;
      case Some(child) =>
        loop := loop.(children := loop.children[child := |starts|]);
        pid := child;
    }

    method PollWithVariant(pid: int, result: Option<nat>)
      modifies this
      ensures View() == Answered(old(View()), pid, result)
    {
      if pid != pollPid {
        refs := refs - 1;
        return;
      }
      pollPid := 0;
      if result.None? {
        refs := refs - 1;
        return;
      }
      applied := applied + [result.value];
      refs := refs - 1;
    }

    method WatchChild(pid: int, success: bool)
      requires Enabled(View(), ChildEnds(pid, success))
      modifies this
      ensures View() == Step(old(View()), ChildEnds(pid, success))
    {
      var number := loop.children[pid];
      loop := loop.(children := loop.children - {pid});
      PollWithVariant(pid, if success then Some(number) else None);
    }
  }

  // --- What holds in every run ------------------------------------------------------------

  ghost predicate IsRun(states: seq<State>, events: seq<Event>) {
    && |states| == |events| + 1
    && states[0] == INITIAL
    && forall i :: 0 <= i < |events| ==>
         Enabled(states[i], events[i]) && states[i + 1] == Step(states[i], events[i])
  }

  function Last(s: seq<int>): int
    requires s != []
  {
    s[|s| - 1]
  }

  // At most one timer, due a period after the last start, and always one for a request.
  ghost predicate TimerInv(s: State) {
    && (s.pollRequested ==> s.pollTimeoutId != 0)
    && s.loop.timers.Keys == (if s.pollTimeoutId == 0 then {} else {s.pollTimeoutId})
    && (s.pollTimeoutId != 0 ==>
          s.starts != [] && s.loop.timers[s.pollTimeoutId] == Last(s.starts) + PERIOD)
    && (s.starts != [] ==> Last(s.starts) <= s.loop.now)
    && (s.starts != [] && s.pollTimeoutId == 0 ==> Last(s.starts) + PERIOD <= s.loop.now)
    && forall i :: 0 < i < |s.starts| ==> s.starts[i] >= s.starts[i - 1] + PERIOD
  }

  // pollPid is the one helper of the last poll; all others have been interrupted.
  ghost predicate ChildInv(s: State) {
    && (s.pollPid != 0 ==> s.pollPid in s.loop.children)
    && forall p :: p in s.loop.children ==>
         && p != 0 && 1 <= s.loop.children[p] <= |s.starts|
         && (s.loop.children[p] == |s.starts| <==> p == s.pollPid)
         && (s.loop.children[p] == |s.starts| || Some(s.loop.children[p]) in s.signals)
  }

  ghost predicate SignalInv(s: State) {
    && (forall i :: 0 <= i < |s.signals| ==> s.signals[i].Some? && s.signals[i].value < |s.starts|)
    && (forall i :: 0 < i < |s.signals| ==> s.signals[i - 1].value < s.signals[i].value)
  }

  ghost predicate AppliedInv(s: State) {
    && (forall i :: 0 <= i < |s.applied| ==> s.applied[i] <= |s.starts|)
    && (s.pollPid != 0 ==> forall i :: 0 <= i < |s.applied| ==> s.applied[i] < |s.starts|)
    && (forall i :: 0 < i < |s.applied| ==> s.applied[i - 1] < s.applied[i])
  }

  ghost predicate SourceInv(s: State) {
    && (forall id :: id in s.loop.idles ==> 0 < id <= s.loop.lastId)
    && s.refs == |s.loop.idles| + |s.loop.timers| + |s.loop.children|
  }

  ghost predicate Inv(s: State) {
    TimerInv(s) && ChildInv(s) && SignalInv(s) && AppliedInv(s) && SourceInv(s)
  }

  lemma MapSizes(m: map<int, nat>, p: int, n: nat)
    ensures p !in m ==> |m[p := n]| == |m| + 1
    ensures p in m ==> |m - {p}| == |m| - 1
  {
    assert m[p := n].Keys == m.Keys + {p} && (m - {p}).Keys == m.Keys - {p};
  }

  lemma StartKeepsChildren(s: State, spawned: Option<int>)
    requires ChildInv(s) && SignalInv(s) && AppliedInv(s) && SpawnPossible(spawned, s.loop.children)
    ensures var t := Started(s, spawned); ChildInv(t) && SignalInv(t) && AppliedInv(t)
  {
    var u := Interrupted(TimerAdded(s));
    assert forall x :: x in s.signals ==> x in u.signals;
    if s.pollPid != 0 { assert u.signals[|s.signals|] == Some(|s.starts|); }
  }

  lemma StartKeepsTimer(s: State, spawned: Option<int>)
    requires TimerInv(s) && s.loop.timers == map[] && !s.pollRequested
    requires s.starts != [] ==> Last(s.starts) + PERIOD <= s.loop.now
    ensures TimerInv(Started(s, spawned))
  {
  }

  lemma StartKeepsSources(s: State, spawned: Option<int>)
    requires SourceInv(s) && s.loop.timers == map[] && SpawnPossible(spawned, s.loop.children)
    ensures SourceInv(Started(s, spawned))
  {
    var u := Interrupted(TimerAdded(s));
    assert u.loop.timers == map[s.loop.lastId + 1 := s.loop.now + PERIOD];
    assert |u.loop.timers| == 1 && |s.loop.timers| == 0;
    assert SourceInv(u);
    SpawnKeepsSources(u, spawned);
  }

  lemma SpawnKeepsSources(s: State, spawned: Option<int>)
    requires SourceInv(s) && SpawnPossible(spawned, s.loop.children)
    ensures SourceInv(Spawned(s, spawned))
  {
    if spawned.Some? { MapSizes(s.loop.children, spawned.value, |s.starts| + 1); }
  }

  lemma StartKeepsInv(s: State, spawned: Option<int>)
    requires Inv(s) && s.pollTimeoutId == 0 && SpawnPossible(spawned, s.loop.children)
    ensures Inv(Started(s, spawned))
  {
    assert s.loop.timers == map[];
    StartKeepsChildren(s, spawned);
    StartKeepsTimer(s, spawned);
    StartKeepsSources(s, spawned);
  }

  // The reference of a source may as well be given up before the source's work is done.
  function IdleGone(s: State, id: nat): State {
    s.(refs := s.refs - 1, loop := s.loop.(idles := s.loop.idles - {id}))
  }

  function TimerGone(s: State, id: nat): State {
    s.(pollTimeoutId := 0, pollRequested := false, refs := s.refs - 1,
       loop := s.loop.(timers := s.loop.timers - {id}))
  }

  lemma ReleaseCommutes(s: State, spawned: Option<int>)
    ensures var t := Started(s, spawned); t.(refs := t.refs - 1) == Started(s.(refs := s.refs - 1), spawned)
  {
    var u := Interrupted(TimerAdded(s));
    assert Interrupted(TimerAdded(s.(refs := s.refs - 1))) == u.(refs := u.refs - 1);
    SpawnCommutes(u, spawned);
  }

  lemma SpawnCommutes(s: State, spawned: Option<int>)
    ensures var t := Spawned(s, spawned); t.(refs := t.refs - 1) == Spawned(s.(refs := s.refs - 1), spawned)
  {
  }

  lemma IdleReleases(s: State, id: nat, spawned: Option<int>)
    requires Enabled(s, IdleRuns(id, spawned))
    ensures Step(s, IdleRuns(id, spawned)) ==
              if s.pollTimeoutId != 0 then IdleGone(s, id).(pollRequested := true)
              else Started(IdleGone(s, id), spawned)
  {
    ReleaseCommutes(IdleGone(s, id).(refs := s.refs), spawned);
  }

  lemma TimerReleases(s: State, id: nat, spawned: Option<int>)
    requires Enabled(s, TimerFires(id, spawned))
    ensures Step(s, TimerFires(id, spawned)) ==
              if s.pollRequested then Started(TimerGone(s, id), spawned) else TimerGone(s, id)
  {
    ReleaseCommutes(TimerGone(s, id).(refs := s.refs), spawned);
  }

  lemma IdleLeavesLoop(s: State, id: nat)
    requires Inv(s) && id in s.loop.idles
    ensures Inv(IdleGone(s, id))
  {
  }

  lemma IdleKeepsInv(s: State, id: nat, spawned: Option<int>)
    requires Inv(s) && Enabled(s, IdleRuns(id, spawned))
    ensures Inv(Step(s, IdleRuns(id, spawned)))
  {
    IdleLeavesLoop(s, id);
    IdleReleases(s, id, spawned);
    if s.pollTimeoutId == 0 {
      StartKeepsInv(IdleGone(s, id), spawned);
    } else {
      WaitKeepsInv(IdleGone(s, id));
    }
  }

  lemma TimerLeavesLoop(s: State, id: nat)
    requires Inv(s) && id in s.loop.timers && s.loop.timers[id] <= s.loop.now
    ensures Inv(TimerGone(s, id))
  {
    assert s.loop.timers == map[id := s.loop.timers[id]];
    assert |s.loop.timers| == 1;
  }

  lemma TimerKeepsInv(s: State, id: nat, spawned: Option<int>)
    requires Inv(s) && Enabled(s, TimerFires(id, spawned))
    ensures Inv(Step(s, TimerFires(id, spawned)))
  {
    TimerLeavesLoop(s, id);
    TimerReleases(s, id, spawned);
    if s.pollRequested {
      StartKeepsInv(TimerGone(s, id), spawned);
    }
  }

  lemma WaitKeepsInv(s: State)
    requires Inv(s) && s.pollTimeoutId != 0
    ensures Inv(s.(pollRequested := true))
  {
  }

  lemma RequestKeepsInv(s: State)
    requires Inv(s)
    ensures Inv(Requested(s))
  {
    IdleAdded(s.loop.idles, s.loop.lastId);
  }

  lemma IdleAdded(idles: set<nat>, lastId: nat)
    requires forall id :: id in idles ==> 0 < id <= lastId
    ensures |idles + {lastId + 1}| == |idles| + 1
  {
    assert lastId + 1 !in idles;
  }

  lemma EndKeepsInv(s: State, pid: int, success: bool)
    requires Inv(s) && pid in s.loop.children
    ensures Inv(Step(s, ChildEnds(pid, success)))
  {
    var number := s.loop.children[pid];
    var t := s.(loop := s.loop.(children := s.loop.children - {pid}));
    MapSizes(s.loop.children, pid, 0);
    AnswerKeepsInv(s, t, pid, if success then Some(number) else None);
  }

  lemma AnswerKeepsInv(s: State, t: State, pid: int, result: Option<nat>)
    requires Inv(s) && pid in s.loop.children && (result.Some? ==> result.value == s.loop.children[pid])
    requires t == s.(loop := s.loop.(children := s.loop.children - {pid})) && |t.loop.children| == |s.loop.children| - 1
    ensures Inv(Answered(t, pid, result))
  {
    var u := Answered(t, pid, result);
    AnswerKeepsChildren(s, t, pid, result);
    AnswerKeepsSources(s, t, pid, result);
  }

  lemma AnswerKeepsSources(s: State, t: State, pid: int, result: Option<nat>)
    requires TimerInv(s) && SignalInv(s) && SourceInv(s) && |t.loop.children| == |s.loop.children| - 1
    requires t == s.(loop := s.loop.(children := s.loop.children - {pid}))
    ensures var u := Answered(t, pid, result); TimerInv(u) && SignalInv(u) && SourceInv(u)
  {
  }

  lemma AnswerKeepsChildren(s: State, t: State, pid: int, result: Option<nat>)
    requires ChildInv(s) && AppliedInv(s) && pid in s.loop.children
    requires result.Some? ==> result.value == s.loop.children[pid]
    requires t == s.(loop := s.loop.(children := s.loop.children - {pid}))
    ensures var u := Answered(t, pid, result); ChildInv(u) && AppliedInv(u)
  {
  }

  lemma InvStep(s: State, e: Event)
    requires Inv(s) && Enabled(s, e)
    ensures Inv(Step(s, e))
  {
    match e
    case Request => RequestKeepsInv(s);
    case IdleRuns(id, spawned) => IdleKeepsInv(s, id, spawned);
    case TimerFires(id, spawned) => TimerKeepsInv(s, id, spawned);
    case ChildEnds(pid, success) => EndKeepsInv(s, pid, success);
    case TimePasses(ms) => TimeKeepsInv(s, ms);
  }

  lemma TimeKeepsInv(s: State, ms: nat)
    requires Inv(s)
    ensures Inv(Step(s, TimePasses(ms)))
  {
  }

  lemma {:induction false} InvAlways(states: seq<State>, events: seq<Event>, j: nat)
    requires IsRun(states, events) && j < |states|
    ensures Inv(states[j])
  {
    if j > 0 {
      InvAlways(states, events, j - 1);
      InvStep(states[j - 1], events[j - 1]);
    }
  }

  // --- What the protocol is for -----------------------------------------------------------

  /** Freshness, exactly: an answer changes the group if and only if the helper succeeded and
      no newer poll has started; so polls are applied in the order they were started in. */
  lemma Freshness(states: seq<State>, events: seq<Event>, j: nat)
    requires IsRun(states, events) && j < |events|
    ensures var s := states[j];
            states[j + 1].applied ==
              s.applied + (if events[j].ChildEnds? && events[j].success && s.loop.children[events[j].pid] == |s.starts|
                           then [|s.starts|] else [])
    ensures forall i, k :: 0 <= i < k < |states[j].applied| ==> states[j].applied[i] < states[j].applied[k]
  {
    InvAlways(states, events, j);
    Increasing(states[j].applied);
  }

  lemma {:induction false} Increasing(s: seq<nat>)
    requires forall i :: 0 < i < |s| ==> s[i - 1] < s[i]
    ensures forall i, k :: 0 <= i < k < |s| ==> s[i] < s[k]
  {
    if s != [] {
      var before := s[..|s| - 1];
      Increasing(before);
      forall i | 0 <= i < |s| - 1
        ensures s[i] < s[|s| - 1]
      {
        if i < |s| - 2 { assert before[i] < before[|s| - 2]; }
      }
      assert forall i :: 0 <= i < |before| ==> before[i] == s[i];
    }
  }

  /** Interrupts: no helper is interrupted twice, none whose end was already reported, and of
      the running ones exactly those that a newer poll has replaced. */
  lemma Interrupts(states: seq<State>, events: seq<Event>, j: nat)
    requires IsRun(states, events) && j < |states|
    ensures var s := states[j];
            && None !in s.signals
            && (forall i, k :: 0 <= i < k < |s.signals| ==> s.signals[i] != s.signals[k])
            && (forall p :: p in s.loop.children ==>
                  (Some(s.loop.children[p]) in s.signals <==> s.loop.children[p] < |s.starts|))
  {
    InvAlways(states, events, j);
    var s := states[j];
    var numbers := seq(|s.signals|, i requires 0 <= i < |s.signals| => s.signals[i].value);
    Increasing(numbers);
    forall i, k | 0 <= i < k < |s.signals|
      ensures s.signals[i] != s.signals[k]
    {
      assert numbers[i] < numbers[k];
    }
  }

  /** Rate: the starts are a period apart. */
  lemma StartsApart(states: seq<State>, events: seq<Event>, j: nat, i: nat, k: nat)
    requires IsRun(states, events) && j < |states| && i < k < |states[j].starts|
    ensures states[j].starts[k] - states[j].starts[i] >= PERIOD * (k - i)
  {
    InvAlways(states, events, j);
    Apart(states[j].starts, i, k);
  }

  lemma {:induction false} Apart(s: seq<int>, i: nat, k: nat)
    requires i < k < |s| && forall i :: 0 < i < |s| ==> s[i] >= s[i - 1] + PERIOD
    ensures s[k] - s[i] >= PERIOD * (k - i)
  {
    if i < k - 1 { Apart(s, i, k - 1); }
  }

  /** References are held for exactly the callbacks to come; a request waits for exactly one
      timer, which is due no later than a period after the last start. */
  lemma WaitingForTimer(states: seq<State>, events: seq<Event>, j: nat)
    requires IsRun(states, events) && j < |states|
    ensures var s := states[j];
            && s.refs == |s.loop.idles| + |s.loop.timers| + |s.loop.children|
            && |s.loop.timers| <= 1
            && (s.pollRequested ==> s.starts != [] && s.loop.timers == map[s.pollTimeoutId := Last(s.starts) + PERIOD])
  {
    InvAlways(states, events, j);
    var s := states[j];
    if s.pollTimeoutId == 0 {
      assert s.loop.timers == map[];
    } else {
      assert s.loop.timers == map[s.pollTimeoutId := Last(s.starts) + PERIOD];
    }
  }

  /** Starts are never taken back. */
  lemma {:induction false} StartsGrow(states: seq<State>, events: seq<Event>, i: nat, j: nat)
    requires IsRun(states, events) && i <= j < |states|
    ensures states[i].starts <= states[j].starts
    ensures states[i].loop.lastId <= states[j].loop.lastId
  {
    if i < j {
      StartsGrow(states, events, i, j - 1);
    }
  }

  /** No request is lost: once its idle source has run, a poll has been started since it was
      made, or the group waits for the timer to start one. */
  lemma {:induction false} RequestIsKept(states: seq<State>, events: seq<Event>, i: nat, j: nat)
    requires IsRun(states, events) && i < j < |states| && events[i] == Request
    ensures var s, t := states[i], states[j];
            s.loop.lastId + 1 in t.loop.idles || |t.starts| > |s.starts| || t.pollRequested
  {
    if i + 1 < j {
      RequestIsKept(states, events, i, j - 1);
      StartsGrow(states, events, i, j - 1);
    }
  }

  /** So a poll has been started for the request once its source has run and no timer is
      pending; and if one is pending, its callback starts that poll. */
  lemma RequestIsServed(states: seq<State>, events: seq<Event>, i: nat, j: nat)
    requires IsRun(states, events) && i < j < |states| && events[i] == Request
    requires states[i].loop.lastId + 1 !in states[j].loop.idles
    ensures states[j].loop.timers == map[] ==> |states[j].starts| > |states[i].starts|
    ensures j < |events| && events[j].TimerFires? ==> |states[j + 1].starts| > |states[i].starts|
  {
    RequestIsKept(states, events, i, j);
    InvAlways(states, events, j);
    StartsGrow(states, events, i, j);
  }

  // The requests among the first j events.
  function Requests(events: seq<Event>, j: nat): nat
    requires j <= |events|
  {
    if j == 0 then 0 else Requests(events, j - 1) + if events[j - 1] == Request then 1 else 0
  }

  // What was paid for: polls started, and requests that have not led to one.
  function Claimed(s: State): int {
    |s.starts| + |s.loop.idles| + if s.pollRequested then 1 else 0
  }

  lemma StartClaims(s: State, spawned: Option<int>)
    ensures Claimed(Started(s, spawned)) == Claimed(s) + 1
  {
  }

  lemma IdleClaims(s: State, id: nat, spawned: Option<int>)
    requires Enabled(s, IdleRuns(id, spawned))
    ensures Claimed(Step(s, IdleRuns(id, spawned))) <= Claimed(s)
  {
    IdleReleases(s, id, spawned);
    StartClaims(IdleGone(s, id), spawned);
  }

  lemma TimerClaims(s: State, id: nat, spawned: Option<int>)
    requires Enabled(s, TimerFires(id, spawned))
    ensures Claimed(Step(s, TimerFires(id, spawned))) <= Claimed(s)
  {
    TimerReleases(s, id, spawned);
    StartClaims(TimerGone(s, id), spawned);
  }

  lemma RequestClaims(s: State)
    requires Inv(s)
    ensures Claimed(Requested(s)) == Claimed(s) + 1
  {
    IdleAdded(s.loop.idles, s.loop.lastId);
  }

  lemma ClaimStep(s: State, e: Event)
    requires Inv(s) && Enabled(s, e)
    ensures Claimed(Step(s, e)) <= Claimed(s) + if e == Request then 1 else 0
  {
    match e
    case Request => RequestClaims(s);
    case IdleRuns(id, spawned) => IdleClaims(s, id, spawned);
    case TimerFires(id, spawned) => TimerClaims(s, id, spawned);
    case ChildEnds(_, _) =>
    case TimePasses(_) =>
  }

  /** Nothing is polled unasked: polls started, requests whose source has not run and the request
      that waits for the timer are together no more than the requests there were. */
  lemma {:induction false} NoneUnasked(states: seq<State>, events: seq<Event>, j: nat)
    requires IsRun(states, events) && j < |states|
    ensures |states[j].starts| + |states[j].loop.idles| + (if states[j].pollRequested then 1 else 0) <= Requests(events, j)
  {
    if j > 0 {
      NoneUnasked(states, events, j - 1);
      InvAlways(states, events, j - 1);
      ClaimStep(states[j - 1], events[j - 1]);
    }
  }
}
