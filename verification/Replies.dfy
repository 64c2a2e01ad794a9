/** Calls that are answered when the object they ask for appears on the bus
    (src/volumegroup.c, src/logicalvolume.c, src/manager.c): a closure waits on the daemon's
    "published" signal, and the job's failure answers it instead. */
module Replies {
  import opened Wrappers

  type Path = string

  /** What is published: a group, a volume of a group, or the link of a block to a volume.
      Objects are known by their identity, a number. */
  datatype Object =
    | GroupObject(name: string, path: Option<Path>)
    | VolumeObject(name: string, group: nat, path: Option<Path>)
    | LinkObject(volume: Option<Path>, path: Option<Path>)

  /** What a call waits for: rename and create of a group, the same and snapshots of a volume,
      or activation, which keeps the volume itself. */
  datatype Want = AGroup(name: string) | AVolume(name: string, group: nat) | ALink(volume: nat)

  datatype Answer = Done(path: Path) | Error

  /** A closure, with the answers its invocation was given. */
  datatype Waiter = Waiter(want: Want, job: nat, connected: bool, freed: bool, answers: seq<Answer>)

  /** `fault`: a freed closure was used. */
  datatype State = State(waiters: seq<Waiter>, objects: map<nat, Object>, running: set<nat>, fault: bool)

  datatype Event =
    | Call(want: Want, job: nat)
    | Publish(id: nat, thing: Object)
    | Unpublish(id: nat)
    | JobEnds(job: nat, success: bool)

  const INITIAL := State([], map[], {}, false)

  // --- One step -----------------------------------------------------------------------------

  // The volume whose activation is awaited may have left the bus: then its path is NULL.
  function PathOf(objects: map<nat, Object>, id: nat): Option<Path> {
    if id in objects then objects[id].path else None
  }

  /** Signal detail and handler together: does this object end the wait? */
  predicate Matches(objects: map<nat, Object>, w: Want, o: Object) {
    match w
    case AGroup(name) => o.GroupObject? && o.name == name
    case AVolume(name, group) => o.VolumeObject? && o.name == name && o.group == group
    case ALink(volume) => o.LinkObject? && o.volume == PathOf(objects, volume)
  }

  function Finish(w: Waiter, a: Answer): Waiter {
    w.(answers := w.answers + [a], connected := false, freed := true)
  }

  function Notified(objects: map<nat, Object>, w: Waiter, o: Object): Waiter {
    if w.connected && o.path.Some? && Matches(objects, w.want, o) then Finish(w, Done(o.path.value)) else w
  }

  // The handler of a failed job answers whatever it is given, also a closure that was freed.
  function Failed(w: Waiter, job: nat): Waiter {
    if w.job == job then Finish(w, Error) else w
  }

  predicate Enabled(s: State, e: Event) {
    match e
    case Call(_, job) => job !in s.running && forall w :: w in s.waiters ==> w.job != job
    case Publish(_, o) => o.path.Some?
    case Unpublish(id) => id in s.objects
    case JobEnds(job, _) => job in s.running
  }

  function Step(s: State, e: Event): State {
    match e
    case Call(want, job) =>
      s.(waiters := s.waiters + [Waiter(want, job, true, false, [])], running := s.running + {job})
    case Publish(id, o) =>
      var objects := s.objects[id := o];
      s.(objects := objects,
         waiters := seq(|s.waiters|, i requires 0 <= i < |s.waiters| => Notified(objects, s.waiters[i], o)))
    case Unpublish(id) =>
      if id in s.objects then s.(objects := s.objects[id := s.objects[id].(path := None)]) else s
    case JobEnds(job, success) =>
      var t := s.(running := s.running - {job});
      if success then t
      else t.(fault := s.fault || (exists w :: w in s.waiters && w.job == job && w.freed),
              waiters := seq(|s.waiters|, i requires 0 <= i < |s.waiters| => Failed(s.waiters[i], job)))
  }

  ghost predicate IsRun(states: seq<State>, events: seq<Event>) {
    && |states| == |events| + 1
    && states[0] == INITIAL
    && forall i :: 0 <= i < |events| ==>
         Enabled(states[i], events[i]) && states[i + 1] == Step(states[i], events[i])
  }

  // --- Closures and handlers ------------------------------------------------------------------

  class CompleteClosure {
    const want: Want
    const job: nat
    var connected: bool
    var freed: bool
    var answers: seq<Answer>

    ghost function View(): Waiter
      reads this
    {
      Waiter(want, job, connected, freed, answers)
    }

    constructor (want: Want, job: nat)
      ensures View() == Waiter(want, job, true, false, [])
    {
      this.want, this.job := want, job;
      connected, freed, answers := true, false, [];
    }

    // Disconnecting drops the handler's closure, and with it this one.
    method Disconnect()
      modifies this`connected, this`freed
      ensures !connected && freed
    {
      connected := false;
      freed := true;
    }

    method OnPublished(objects: map<nat, Object>, o: Object)
      requires o.path.Some? && connected
      modifies this
      ensures View() == Notified(objects, old(View()), o)
    {
      if Matches(objects, want, o) {
        answers := answers + [Done(o.path.value)];
        Disconnect();
      }
    }

    /** The handler of the job. It looks into the closure only on failure, but then also into a
        freed one, and sends a second answer from there. */
    method OnComplete(success: bool) returns (fault: bool)
      modifies this
      ensures View() == if success then old(View()) else Failed(old(View()), job)
      ensures fault == (!success && old(freed))
    {
      if success {
        return false;
      }
      fault := freed;
      answers := answers + [Error];
      Disconnect();
    }
  }

  class StorageDaemon {
    var closures: seq<CompleteClosure>
    var objects: map<nat, Object>
    var running: set<nat>
    var fault: bool

    ghost predicate Valid()
      reads this
    {
      forall i, k :: 0 <= i < k < |closures| ==> closures[i] != closures[k]
    }

    ghost function View(): State
      reads this, closures
    {
      State(seq(|closures|, i requires 0 <= i < |closures| reads this, closures => closures[i].View()),
            objects, running, fault)
    }

    constructor ()
      ensures Valid() && View() == INITIAL
    {
      closures, objects, running, fault := [], map[], {}, false;
    }

    method HandleCall(want: Want, job: nat) returns (c: CompleteClosure)
      requires Valid()
      modifies this
      ensures Valid() && fresh(c) && closures == old(closures) + [c]
      ensures View() == Step(old(View()), Call(want, job))
    {
      c := new CompleteClosure(want, job);
      closures := closures + [c];
      running := running + {job};
    }

    method Publish(id: nat, o: Object)
      requires Valid() && o.path.Some?
      modifies this, closures
      ensures Valid() && closures == old(closures)
      ensures View() == Step(old(View()), Event.Publish(id, o))
    {
      objects := objects[id := o];
      var i := 0;
      while i < |closures|
        invariant 0 <= i <= |closures| && closures == old(closures)
        invariant objects == old(objects)[id := o] && running == old(running) && fault == old(fault)
        invariant forall k :: 0 <= k < i ==> closures[k].View() == Notified(objects, old(closures[k].View()), o)
        invariant forall k :: i <= k < |closures| ==> closures[k].View() == old(closures[k].View())
      {
        if closures[i].connected {
          closures[i].OnPublished(objects, o);
        }
        i := i + 1;
      }
    }

    method Unpublish(id: nat)
      requires Valid()
      modifies this`objects
      ensures View() == Step(old(View()), Event.Unpublish(id))
    {
      if id in objects {
        objects := objects[id := objects[id].(path := None)];
      }
    }

    method EmitCompleted(job: nat, success: bool) returns (touched: bool)
      requires Valid()
      modifies closures
      ensures forall k :: 0 <= k < |closures| ==>
                closures[k].View() == if success then old(closures[k].View()) else Failed(old(closures[k].View()), job)
      ensures touched <==> !success && exists k :: 0 <= k < |closures| && closures[k].job == job && old(closures[k].freed)
    {
      touched := false;
      var i := 0;
      while i < |closures|
        invariant 0 <= i <= |closures|
        invariant forall k :: 0 <= k < i ==>
                    closures[k].View() == if success then old(closures[k].View()) else Failed(old(closures[k].View()), job)
        invariant forall k :: i <= k < |closures| ==> closures[k].View() == old(closures[k].View())
        invariant touched <==> !success && exists k :: 0 <= k < i && closures[k].job == job && old(closures[k].freed)
      {
        if closures[i].job == job {
          var bad := closures[i].OnComplete(success);
          touched := touched || bad;
        }
        i := i + 1;
      }
    }

    method JobCompleted(job: nat, success: bool)
      requires Valid()
      modifies this, closures
      ensures Valid() && closures == old(closures)
      ensures View() == Step(old(View()), JobEnds(job, success))
    {
      ghost var before := View();
      running := running - {job};
      var touched := EmitCompleted(job, success);
      assert forall k :: 0 <= k < |closures| ==> before.waiters[k] == old(closures[k].View());
      fault := fault || touched;
      EndsMeans(before, View(), job, success, touched);
    }
  }

  lemma TouchedMeans(s: State, job: nat, success: bool, touched: bool)
    requires touched <==> !success && exists k :: 0 <= k < |s.waiters| && s.waiters[k].job == job && s.waiters[k].freed
    ensures Step(s, JobEnds(job, success)).fault == (s.fault || touched)
  {
    assert forall k :: 0 <= k < |s.waiters| ==> s.waiters[k] in s.waiters;
  }

  lemma EndsMeans(s: State, t: State, job: nat, success: bool, touched: bool)
    requires touched <==> !success && exists k :: 0 <= k < |s.waiters| && s.waiters[k].job == job && s.waiters[k].freed
    requires t == s.(running := s.running - {job}, fault := s.fault || touched, waiters := t.waiters)
    requires |t.waiters| == |s.waiters|
    requires forall k :: 0 <= k < |s.waiters| ==> t.waiters[k] == if success then s.waiters[k] else Failed(s.waiters[k], job)
    ensures t == Step(s, JobEnds(job, success))
  {
    TouchedMeans(s, job, success, touched);
    if success { assert t.waiters == s.waiters; }
  }

  // --- What holds in every run ----------------------------------------------------------------

  ghost predicate WaiterInv(w: Waiter, running: set<nat>) {
    && (w.connected <==> w.answers == [])
    && (w.freed <==> w.answers != [])
    && (w.answers == [] || (|w.answers| == 1 && w.answers[0].Done?) || w.answers == [Error] ||
        (|w.answers| == 2 && w.answers[0].Done? && w.answers[1] == Error))
    && (w.job in running ==> |w.answers| <= 1 && w.answers != [Error])
  }

  ghost predicate Inv(s: State) {
    && (forall i :: 0 <= i < |s.waiters| ==> WaiterInv(s.waiters[i], s.running))
    && (forall i, k :: 0 <= i < k < |s.waiters| ==> s.waiters[i].job != s.waiters[k].job)
  }

  lemma FinishKeepsInv(w: Waiter, a: Answer, running: set<nat>, after: set<nat>)
    requires WaiterInv(w, running) && w.job in running && after <= running
    requires if a == Error then w.job !in after else w.answers == []
    ensures WaiterInv(Finish(w, a), after)
  {
    if w.answers != [] {
      assert w.answers + [a] == [w.answers[0], a];
    } else {
      assert w.answers + [a] == [a];
    }
  }

  lemma NotifyKeepsInv(objects: map<nat, Object>, w: Waiter, o: Object, running: set<nat>)
    requires WaiterInv(w, running)
    ensures WaiterInv(Notified(objects, w, o), running)
  {
    if w.connected && o.path.Some? { assert w.answers + [Done(o.path.value)] == [Done(o.path.value)]; }
  }

  lemma InvStep(s: State, e: Event)
    requires Inv(s) && Enabled(s, e)
    ensures Inv(Step(s, e))
  {
    match e
    case Call(_, job) => assert forall i :: 0 <= i < |s.waiters| ==> s.waiters[i] in s.waiters;
    case Publish(id, o) =>
      forall i | 0 <= i < |s.waiters|
        ensures WaiterInv(Notified(s.objects[id := o], s.waiters[i], o), s.running)
      {
        NotifyKeepsInv(s.objects[id := o], s.waiters[i], o, s.running);
      }
    case Unpublish(_) =>
    case JobEnds(job, success) =>
      forall i | 0 <= i < |s.waiters| && s.waiters[i].job == job
        ensures WaiterInv(Failed(s.waiters[i], job), s.running - {job})
      {
        FinishKeepsInv(s.waiters[i], Error, s.running, s.running - {job});
      }
  }

  lemma {:induction false} InvAlways(states: seq<State>, events: seq<Event>, j: nat)
    requires IsRun(states, events) && j < |states|
    ensures Inv(states[j])
  {
    if j > 0 {
      InvAlways(states, events, j - 1);
      InvStep(states[j - 1], events[j - 1]);
    }
  }

  /** The job of call k fails although the call was answered. Then the object it waits for was
      published before, since a job ends once. */
  ghost predicate FailsLate(s: State, e: Event, k: nat) {
    e.JobEnds? && !e.success && k < |s.waiters| && s.waiters[k].job == e.job && s.waiters[k].answers != []
  }

  ghost predicate FailedLate(states: seq<State>, events: seq<Event>, j: nat, k: nat)
    requires j <= |events| && j <= |states|
  {
    exists i :: 0 <= i < j && FailsLate(states[i], events[i], k)
  }

  lemma FailedLateOneMore(states: seq<State>, events: seq<Event>, j: nat, k: nat)
    requires j < |events| && j < |states|
    ensures FailedLate(states, events, j + 1, k) <==> FailedLate(states, events, j, k) || FailsLate(states[j], events[j], k)
  {
  }

  predicate AnsweredTwice(s: State, k: nat) {
    k < |s.waiters| && |s.waiters[k].answers| == 2
  }

  lemma TwiceStep(s: State, e: Event, k: nat)
    requires Inv(s) && Enabled(s, e)
    ensures AnsweredTwice(Step(s, e), k) <==> AnsweredTwice(s, k) || FailsLate(s, e, k)
  {
    assert k < |s.waiters| ==> WaiterInv(s.waiters[k], s.running);
  }

  lemma {:induction false} Twice(states: seq<State>, events: seq<Event>, j: nat, k: nat)
    requires IsRun(states, events) && j < |states|
    ensures AnsweredTwice(states[j], k) <==> FailedLate(states, events, j, k)
  {
    if j > 0 {
      Twice(states, events, j - 1, k);
      InvAlways(states, events, j - 1);
      TwiceStep(states[j - 1], events[j - 1], k);
      FailedLateOneMore(states, events, j - 1, k);
    }
  }

  /** In every run an invocation is answered at most once, exactly as long as its job does not
      fail after it was answered with success; then it is answered twice. Its handler is connected
      as long as its closure lives and as it is unanswered. */
  lemma AnsweredOnce(states: seq<State>, events: seq<Event>, j: nat, k: nat)
    requires IsRun(states, events) && j < |states| && k < |states[j].waiters|
    ensures var w := states[j].waiters[k];
            && (|w.answers| <= 1 <==> !FailedLate(states, events, j, k))
            && (|w.answers| > 1 ==> |w.answers| == 2 && w.answers[0].Done? && w.answers[1] == Error)
            && (w.connected <==> !w.freed) && (w.connected <==> w.answers == [])
  {
    InvAlways(states, events, j);
    Twice(states, events, j, k);
    assert WaiterInv(states[j].waiters[k], states[j].running);
  }

  // --- Which answer ---------------------------------------------------------------------------

  /** What the call asked for, at that path: a group of the name, a volume of the name in that very
      group, or the link of a block to the path that the volume has now. */
  predicate IsWanted(objects: map<nat, Object>, want: Want, path: Path, o: Object) {
    match want
    case AGroup(name) => o == GroupObject(name, Some(path))
    case AVolume(name, group) => o == VolumeObject(name, group, Some(path))
    case ALink(volume) => o == LinkObject(if volume in objects then objects[volume].path else None, Some(path))
  }

  lemma MatchesMeans(objects: map<nat, Object>, want: Want, path: Path, o: Object)
    ensures IsWanted(objects, want, path, o) <==> o.path == Some(path) && Matches(objects, want, o)
  {
  }

  // The answer that an event has for a call, if it is still open.
  function AnswerOf(s: State, e: Event, want: Want, job: nat): Option<Answer> {
    match e
    case Publish(id, o) =>
      if o.path.Some? && IsWanted(s.objects[id := o], want, o.path.value, o) then Some(Done(o.path.value)) else None
    case JobEnds(ended, success) => if ended == job && !success then Some(Error) else None
    case Call(_, _) => None
    case Unpublish(_) => None
  }

  /** The reference: the first event after the call that has an answer for it. */
  function FirstAnswer(states: seq<State>, events: seq<Event>, i: nat, j: nat, want: Want, job: nat): Option<Answer>
    requires i <= j <= |events| && |states| == |events| + 1
    decreases j - i
  {
    if i == j then None
    else if AnswerOf(states[i], events[i], want, job).Some? then AnswerOf(states[i], events[i], want, job)
    else FirstAnswer(states, events, i + 1, j, want, job)
  }

  lemma {:induction false} FirstAnswerOneMore(states: seq<State>, events: seq<Event>, i: nat, j: nat, want: Want, job: nat)
    requires i <= j < |events| && |states| == |events| + 1
    ensures FirstAnswer(states, events, i, j + 1, want, job) ==
              if FirstAnswer(states, events, i, j, want, job).Some? then FirstAnswer(states, events, i, j, want, job)
              else AnswerOf(states[j], events[j], want, job)
    decreases j - i
  {
    if i < j {
      FirstAnswerOneMore(states, events, i + 1, j, want, job);
    } else {
      assert FirstAnswer(states, events, j + 1, j + 1, want, job) == None;
    }
  }

  lemma AnswerStep(s: State, e: Event, k: nat)
    requires Inv(s) && Enabled(s, e) && k < |s.waiters|
    ensures k < |Step(s, e).waiters|
    ensures var w, w', a := s.waiters[k], Step(s, e).waiters[k], AnswerOf(s, e, s.waiters[k].want, s.waiters[k].job);
            && w'.want == w.want && w'.job == w.job
            && (w.answers == [] ==> w'.answers == if a.Some? then [a.value] else [])
            && (w.answers != [] ==> w'.answers == w.answers + if FailsLate(s, e, k) then [Error] else [])
  {
    assert WaiterInv(s.waiters[k], s.running);
    if e.Publish? && e.thing.path.Some? {
      MatchesMeans(s.objects[e.id := e.thing], s.waiters[k].want, e.thing.path.value, e.thing);
    }
  }

  /** Publishing the object that an open call asked for answers it with the path, and publishing
      any other leaves it open. */
  lemma OnlyWantedAnswers(states: seq<State>, events: seq<Event>, j: nat, k: nat)
    requires IsRun(states, events) && j < |events| && k < |states[j].waiters|
    requires events[j].Publish? && states[j].waiters[k].answers == []
    ensures var w, o := states[j].waiters[k], events[j].thing;
            && k < |states[j + 1].waiters| && o.path.Some?
            && states[j + 1].waiters[k].answers ==
                 if IsWanted(states[j + 1].objects, w.want, o.path.value, o) then [Done(o.path.value)] else []
  {
    InvAlways(states, events, j);
    AnswerStep(states[j], events[j], k);
  }

  /** Nothing is lost and nothing is made up: a call made at i has, at any later moment, been
      given exactly the answer of the first event after it that has one, and after a late failure
      an error as well. */
  lemma {:induction false} AnswerIsFirst(states: seq<State>, events: seq<Event>, i: nat, j: nat)
    requires IsRun(states, events) && i < j < |states| && events[i].Call?
    ensures var k, a := |states[i].waiters|, FirstAnswer(states, events, i + 1, j, events[i].want, events[i].job);
            && k < |states[j].waiters|
            && states[j].waiters[k].want == events[i].want && states[j].waiters[k].job == events[i].job
            && states[j].waiters[k].answers ==
                 if a.None? then [] else [a.value] + if FailedLate(states, events, j, k) then [Error] else []
  {
    var k := |states[i].waiters|;
    if i + 1 < j {
      AnswerIsFirst(states, events, i, j - 1);
      InvAlways(states, events, j - 1);
      AnswerStep(states[j - 1], events[j - 1], k);
      FirstAnswerOneMore(states, events, i + 1, j - 1, events[i].want, events[i].job);
    }
    Twice(states, events, j, k);
    InvAlways(states, events, j);
    assert WaiterInv(states[j].waiters[k], states[j].running);
  }

  // The i-th event is the last of the first j that publishes this object.
  predicate IsLastPublish(events: seq<Event>, i: nat, j: nat, id: nat) {
    && i < j <= |events| && events[i].Publish? && events[i].id == id
    && forall k :: i < k < j && events[k].Publish? ==> events[k].id != id
  }

  // Where the object is after it was published with the i-th event.
  function SincePublish(events: seq<Event>, i: nat, j: nat): Object
    requires i < j <= |events| && events[i].Publish?
  {
    var o := events[i].thing;
    if exists k :: i < k < j && events[k] == Unpublish(events[i].id) then o.(path := None) else o
  }

  lemma SincePublishOneMore(events: seq<Event>, i: nat, j: nat)
    requires i < j < |events| && events[i].Publish?
    ensures SincePublish(events, i, j + 1) ==
            if events[j] == Unpublish(events[i].id) then SincePublish(events, i, j).(path := None) else SincePublish(events, i, j)
  {
  }

  // What the first j events have made of this object.
  ghost predicate IsHistory(objects: map<nat, Object>, events: seq<Event>, j: nat, id: nat)
    requires j <= |events|
  {
    && (id in objects <==> exists i: nat :: IsLastPublish(events, i, j, id))
    && forall i: nat :: IsLastPublish(events, i, j, id) ==> objects[id] == SincePublish(events, i, j)
  }

  lemma HistoryOneMore(before: map<nat, Object>, after: map<nat, Object>, events: seq<Event>, j: nat, next: nat, id: nat)
    requires j < |events| && next == j + 1 && IsHistory(before, events, j, id)
    requires if events[j].Publish? && events[j].id == id then id in after && after[id] == events[j].thing
             else (id in after <==> id in before) &&
                  (id in before ==> after[id] == if events[j] == Unpublish(id) then before[id].(path := None) else before[id])
    ensures IsHistory(after, events, next, id)
  {
    if events[j].Publish? && events[j].id == id {
      assert IsLastPublish(events, j, next, id);
    } else {
      assert forall i: nat :: IsLastPublish(events, i, next, id) <==> IsLastPublish(events, i, j, id);
      forall i: nat | IsLastPublish(events, i, j, id)
        ensures SincePublish(events, i, next) == after[id]
      {
        SincePublishOneMore(events, i, j);
      }
    }
  }

  /** Where an object is: at the path of its last publication, unless it was unpublished since. */
  lemma {:induction false} ObjectsAreHistory(states: seq<State>, events: seq<Event>, j: nat, id: nat)
    requires IsRun(states, events) && j < |states|
    ensures IsHistory(states[j].objects, events, j, id)
  {
    if j > 0 {
      ObjectsAreHistory(states, events, j - 1, id);
      HistoryOneMore(states[j - 1].objects, states[j].objects, events, j - 1, j, id);
    }
  }

  // The event publishes an object that is wanted, at that path; it is exported there then.
  ghost predicate Serves(s: State, e: Event, t: State, want: Want, path: Path) {
    && e.Publish? && IsWanted(t.objects, want, path, e.thing)
    && e.id in t.objects && t.objects[e.id] == e.thing
  }

  /** Any success that an invocation was ever given named just what it asked for, at the path where
      that had just been exported. */
  lemma {:induction false} SuccessNamesObject(states: seq<State>, events: seq<Event>, j: nat, k: nat)
    requires IsRun(states, events) && j < |states| && k < |states[j].waiters|
    requires states[j].waiters[k].answers != [] && states[j].waiters[k].answers[0].Done?
    ensures exists i :: 0 <= i < j &&
                        Serves(states[i], events[i], Step(states[i], events[i]),
                               states[j].waiters[k].want, states[j].waiters[k].answers[0].path)
  {
    if j > 0 {
      InvAlways(states, events, j - 1);
      if k < |states[j - 1].waiters| {
        AnswerStep(states[j - 1], events[j - 1], k);
        if states[j - 1].waiters[k].answers != [] {
          SuccessNamesObject(states, events, j - 1, k);
          var i :| 0 <= i < j - 1 && Serves(states[i], events[i], Step(states[i], events[i]),
                                            states[j - 1].waiters[k].want, states[j - 1].waiters[k].answers[0].path);
        } else {
          assert Serves(states[j - 1], events[j - 1], Step(states[j - 1], events[j - 1]),
                        states[j].waiters[k].want, states[j].waiters[k].answers[0].path);
        }
      }
    }
  }

  // --- Freed closures -------------------------------------------------------------------------

  ghost predicate SomeLate(s: State, e: Event) {
    exists k :: FailsLate(s, e, k)
  }

  /** A freed closure is used exactly if some job fails after its call was answered with
      success. The source relies on that not happening. */
  lemma {:induction false} FaultIsLateFailure(states: seq<State>, events: seq<Event>, j: nat)
    requires IsRun(states, events) && j < |states|
    ensures states[j].fault <==> exists i :: 0 <= i < j && SomeLate(states[i], events[i])
  {
    if j > 0 {
      FaultIsLateFailure(states, events, j - 1);
      InvAlways(states, events, j - 1);
      FaultStep(states[j - 1], events[j - 1]);
    }
  }

  lemma FaultStep(s: State, e: Event)
    requires Inv(s) && Enabled(s, e)
    ensures Step(s, e).fault <==> s.fault || SomeLate(s, e)
  {
    assert forall k :: 0 <= k < |s.waiters| ==> s.waiters[k] in s.waiters && WaiterInv(s.waiters[k], s.running);
    forall w | w in s.waiters && w.freed && e.JobEnds? && !e.success && w.job == e.job
      ensures SomeLate(s, e)
    {
      var k :| 0 <= k < |s.waiters| && s.waiters[k] == w;
      assert FailsLate(s, e, k);
    }
  }

  /** It is not excluded: the object appears, and then the job fails. */
  lemma LateFailure() returns (states: seq<State>, events: seq<Event>)
    ensures IsRun(states, events) && states[|events|].fault
    ensures |states[|events|].waiters| == 1 && states[|events|].waiters[0].answers == [Done("/g"), Error]
  {
    var o := GroupObject("g", Some("/g"));
    var e, f, g := Call(AGroup("g"), 0), Publish(0, o), JobEnds(0, false);
    var s1 := Step(INITIAL, e);
    var s2 := Step(s1, f);
    var s3 := Step(s2, g);
    states, events := [INITIAL, s1, s2, s3], [e, f, g];
    assert s2.waiters[0].answers == [Done("/g")];
    assert s2.waiters[0] in s2.waiters;
    assert s3.waiters[0].answers == [Done("/g")] + [Error];
  }
}
