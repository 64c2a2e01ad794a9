/** When the daemon may stop: clients are noticed on the bus thread (src/invocation.c), counted
    on the main thread together with jobs and the bus name (src/daemon.c). */
module Lifetime {
  // --- Clients ------------------------------------------------------------------------------

  datatype Note = Appeared(name: string) | Disappeared(name: string)

  /** The table of clients, what is queued for the main loop, and all that was ever queued. */
  datatype Clients = Clients(table: set<string>, queue: seq<Note>, sent: seq<Note>)

  function Send(c: Clients, n: Note): Clients {
    c.(queue := c.queue + [n], sent := c.sent + [n])
  }

  function ClientCalls(c: Clients, name: string): Clients {
    if name in c.table then c else Send(c.(table := c.table + {name}), Appeared(name))
  }

  function ClientVanishes(c: Clients, name: string): Clients {
    if name in c.table then Send(c.(table := c.table - {name}), Disappeared(name)) else c
  }

  // --- The daemon ---------------------------------------------------------------------------

  /** `ownsName` says that a name owner id is held, `nameOwned` that the bus granted the name.
      `finished` counts emissions, `aborted` says that an assertion failed. */
  datatype Daemon = Daemon(persist: bool, ownsName: bool, nameOwned: bool,
                           numClients: int, numJobs: int, finished: nat, aborted: bool)

  predicate IsIdle(d: Daemon) {
    !d.persist && !d.nameOwned && d.numClients == 0 && d.numJobs == 0
  }

  function MaybeFinished(d: Daemon): Daemon {
    if IsIdle(d) then d.(finished := d.finished + 1) else d
  }

  function Told(d: Daemon, n: Note): Daemon {
    match n
    case Appeared(_) => d.(numClients := d.numClients + 1)
    case Disappeared(_) =>
      if d.numClients <= 0 then d.(aborted := true)
      else
        var e := d.(numClients := d.numClients - 1);
        MaybeFinished(if e.numClients == 0 && !e.persist && e.ownsName then e.(ownsName := false, nameOwned := false)
                      else e)
  }

  function JobDone(d: Daemon): Daemon {
    if d.numJobs <= 0 then d.(aborted := true) else MaybeFinished(d.(numJobs := d.numJobs - 1))
  }

  datatype State = State(clients: Clients, daemon: Daemon, jobs: set<nat>)

  /** The bus reports a name only while it is requested. */
  datatype Event =
    | MethodCall(name: string)
    | Vanished(name: string)
    | Deliver
    | ManagerReady
    | NameAcquired
    | NameLost
    | JobLaunched(job: nat)
    | JobCompleted(job: nat)

  predicate Enabled(s: State, e: Event) {
    match e
    case MethodCall(_) => true
    case Vanished(_) => true
    case Deliver => s.clients.queue != []
    case ManagerReady => !s.daemon.ownsName
    case NameAcquired => s.daemon.ownsName
    case NameLost => s.daemon.ownsName
    case JobLaunched(job) => job !in s.jobs
    case JobCompleted(job) => job in s.jobs
  }

  function Step(s: State, e: Event): State
    requires Enabled(s, e)
  {
    match e
    case MethodCall(name) => s.(clients := ClientCalls(s.clients, name))
    case Vanished(name) => s.(clients := ClientVanishes(s.clients, name))
    case Deliver => s.(clients := s.clients.(queue := s.clients.queue[1..]), daemon := Told(s.daemon, s.clients.queue[0]))
    case ManagerReady => s.(daemon := s.daemon.(ownsName := true))
    case NameAcquired => s.(daemon := s.daemon.(nameOwned := true))
    case NameLost => s.(daemon := MaybeFinished(s.daemon.(nameOwned := false)))
    case JobLaunched(job) => s.(jobs := s.jobs + {job}, daemon := s.daemon.(numJobs := s.daemon.numJobs + 1))
    case JobCompleted(job) => s.(jobs := s.jobs - {job}, daemon := JobDone(s.daemon))
  }

  function Initial(persist: bool): State {
    State(Clients({}, [], []), Daemon(persist, false, false, 0, 0, 0, false), {})
  }

  // --- The objects --------------------------------------------------------------------------

  class StorageDaemon {
    const persist: bool
    var ownsName: bool
    var nameOwned: bool
    var numClients: int
    var numJobs: int
    var finished: nat
    var aborted: bool

    ghost function View(): Daemon
      reads this
    {
      Daemon(persist, ownsName, nameOwned, numClients, numJobs, finished, aborted)
    }

    constructor (persist: bool)
      ensures View() == Initial(persist).daemon
    {
      this.persist := persist;
      ownsName, nameOwned, numClients, numJobs, finished, aborted := false, false, 0, 0, 0, false;
    }

    method MaybeFinish()
      modifies this`finished
      ensures View() == MaybeFinished(old(View()))
    {
      if !persist && !nameOwned && numClients == 0 && numJobs == 0 {
        finished := finished + 1;
      }
    }

    method OnNameLost()
      modifies this
      ensures View() == MaybeFinished(old(View()).(nameOwned := false))
    {
      nameOwned := false;
      MaybeFinish();
    }

    method OnNameAcquired()
      modifies this`nameOwned
      ensures View() == old(View()).(nameOwned := true)
    {
      nameOwned := true;
    }

    method OnManagerReady()
      modifies this`ownsName
      ensures View() == old(View()).(ownsName := true)
    {
      ownsName := true;
    }

    method OnClientAppeared(name: string)
      modifies this
      ensures View() == Told(old(View()), Appeared(name))
    {
      numClients := numClients + 1;
    }

    method OnClientDisappeared(name: string)
      modifies this
      ensures View() == Told(old(View()), Disappeared(name))
    {
      if numClients <= 0 {
        aborted := true;
        return;
      }
      numClients := numClients - 1;
      if numClients == 0 {
        if !persist && ownsName {
          ownsName := false;
          nameOwned := false;
        }
      }
      MaybeFinish();
    }

    method LaunchJob()
      modifies this`numJobs
      ensures View() == old(View()).(numJobs := old(numJobs) + 1)
    {
      numJobs := numJobs + 1;
    }

    method OnJobCompleted()
      modifies this
      ensures View() == JobDone(old(View()))
    {
      if numJobs <= 0 {
        aborted := true;
        return;
      }
      numJobs := numJobs - 1;
      MaybeFinish();
    }
  }

  class Invocations {
    var clients: set<string>
    var queue: seq<Note>
    ghost var sent: seq<Note>

    ghost function View(): Clients
      reads this
    {
      Clients(clients, queue, sent)
    }

    constructor ()
      ensures View() == Initial(false).clients
    {
      clients, queue, sent := {}, [], [];
    }

    method Invoke(n: Note)
      modifies this`queue, this`sent
      ensures View() == Send(old(View()), n)
    {
      queue := queue + [n];
      sent := sent + [n];
    }

    method ClientCreate(name: string)
      modifies this
      ensures View() == ClientCalls(old(View()), name)
    {
      if name in clients {
        return;
      }
      clients := clients + {name};
      Invoke(Appeared(name));
    }

    method OnClientVanished(name: string)
      modifies this
      ensures View() == ClientVanishes(old(View()), name)
    {
      if name in clients {
        clients := clients - {name};
        Invoke(Disappeared(name));
      }
    }

    /** The main loop takes the oldest note. */
    method Dispatch(daemon: StorageDaemon)
      requires queue != []
      modifies this`queue, daemon
      ensures View() == old(View()).(queue := old(queue[1..]))
      ensures daemon.View() == Told(old(daemon.View()), old(queue[0]))
    {
      var n := queue[0];
      queue := queue[1..];
      match n
      case Appeared(name) => daemon.OnClientAppeared(name);
      case Disappeared(name) => daemon.OnClientDisappeared(name);
    }
  }

  // --- What holds in every run --------------------------------------------------------------

  ghost predicate IsRun(states: seq<State>, events: seq<Event>) {
    && |states| == |events| + 1
    && (exists persist :: states[0] == Initial(persist))
    && forall i :: 0 <= i < |events| ==>
         Enabled(states[i], events[i]) && states[i + 1] == Step(states[i], events[i])
  }

  /** The reference: who is there after these notes. */
  function Present(notes: seq<Note>): set<string> {
    if notes == [] then {}
    else After(Present(notes[..|notes| - 1]), notes[|notes| - 1])
  }

  function After(names: set<string>, n: Note): set<string> {
    if n.Appeared? then names + {n.name} else names - {n.name}
  }

  predicate IsNews(names: set<string>, n: Note) {
    n.Appeared? <==> n.name !in names
  }

  // Each note is news.
  predicate Alternates(notes: seq<Note>) {
    forall i :: 0 <= i < |notes| ==> IsNews(Present(notes[..i]), notes[i])
  }

  function Delivered(c: Clients): seq<Note>
    requires |c.queue| <= |c.sent|
  {
    c.sent[..|c.sent| - |c.queue|]
  }

  ghost predicate Inv(s: State) {
    var c := s.clients;
    && IsTail(c)
    && Alternates(c.sent)
    && c.table == Present(c.sent)
    && s.daemon.numClients == |Present(Delivered(c))|
    && s.daemon.numJobs == |s.jobs|
    && !s.daemon.aborted
  }

  lemma AlternatesOneMore(notes: seq<Note>, n: Note)
    requires Alternates(notes) && IsNews(Present(notes), n)
    ensures Alternates(notes + [n])
  {
    var longer := notes + [n];
    forall i | 0 <= i < |longer|
      ensures IsNews(Present(longer[..i]), longer[i])
    {
      assert longer[..i] == notes[..i];
    }
    assert notes[..|notes|] == notes;
  }

  // What is queued is the end of what was sent.
  predicate IsTail(c: Clients) {
    |c.queue| <= |c.sent| && c.queue == c.sent[|c.sent| - |c.queue|..]
  }

  lemma TailOneMore(c: Clients, n: Note)
    requires IsTail(c)
    ensures IsTail(Send(c, n)) && Delivered(Send(c, n)) == Delivered(c)
  {
  }

  lemma TailRest(c: Clients)
    requires IsTail(c) && c.queue != []
    ensures var c' := c.(queue := c.queue[1..]); IsTail(c') && Delivered(c') == Delivered(c) + [c.queue[0]]
    ensures c.sent[|c.sent| - |c.queue|] == c.queue[0]
  {
  }

  lemma SendKeepsInv(s: State, c: Clients, n: Note)
    requires Inv(s) && c == Send(s.clients, n).(table := Present(s.clients.sent + [n]))
    requires IsNews(s.clients.table, n)
    ensures Inv(s.(clients := c))
  {
    AlternatesOneMore(s.clients.sent, n);
    TailOneMore(s.clients, n);
  }

  lemma PresentOneMore(notes: seq<Note>, n: Note)
    ensures Present(notes + [n]) == After(Present(notes), n)
  {
    assert (notes + [n])[..|notes|] == notes;
  }

  // The counter follows what is delivered.
  lemma ToldCounts(d: Daemon, names: set<string>, n: Note)
    requires d.numClients == |names| && !d.aborted && IsNews(names, n)
    ensures var e := Told(d, n); e.numClients == |After(names, n)| && !e.aborted && e.numJobs == d.numJobs
  {
    NewsCounts(names, n);
    if n.Disappeared? { assert |names| > 0; }
  }

  lemma DeliverKeepsInv(s: State)
    requires Inv(s) && s.clients.queue != []
    ensures Inv(Step(s, Deliver))
  {
    var c := s.clients;
    var n := c.queue[0];
    TailRest(c);
    PresentOneMore(Delivered(c), n);
    assert IsNews(Present(c.sent[..|c.sent| - |c.queue|]), n);
    ToldCounts(s.daemon, Present(Delivered(c)), n);
  }

  lemma OneJob(jobs: set<nat>, job: nat)
    ensures job !in jobs ==> |jobs + {job}| == |jobs| + 1
    ensures job in jobs ==> |jobs - {job}| == |jobs| - 1
  {
  }

  lemma JobKeepsInv(s: State, e: Event)
    requires Inv(s) && Enabled(s, e) && (e.JobLaunched? || e.JobCompleted?)
    ensures Inv(Step(s, e))
  {
    OneJob(s.jobs, e.job);
  }

  lemma NameKeepsInv(s: State, e: Event)
    requires Inv(s) && Enabled(s, e) && (e.ManagerReady? || e.NameAcquired? || e.NameLost?)
    ensures Inv(Step(s, e))
  {
  }

  lemma InvStep(s: State, e: Event)
    requires Inv(s) && Enabled(s, e)
    ensures Inv(Step(s, e))
  {
    match e
    case MethodCall(name) =>
      PresentOneMore(s.clients.sent, Appeared(name));
      if name !in s.clients.table { SendKeepsInv(s, Step(s, e).clients, Appeared(name)); }
    case Vanished(name) =>
      PresentOneMore(s.clients.sent, Disappeared(name));
      if name in s.clients.table { SendKeepsInv(s, Step(s, e).clients, Disappeared(name)); }
    case Deliver => DeliverKeepsInv(s);
    case JobLaunched(_) => JobKeepsInv(s, e);
    case JobCompleted(_) => JobKeepsInv(s, e);
    case ManagerReady => NameKeepsInv(s, e);
    case NameAcquired => NameKeepsInv(s, e);
    case NameLost => NameKeepsInv(s, e);
  }

  lemma {:induction false} InvAlways(states: seq<State>, events: seq<Event>, j: nat)
    requires IsRun(states, events) && j < |states|
    ensures Inv(states[j])
  {
    if j > 0 {
      InvAlways(states, events, j - 1);
      InvStep(states[j - 1], events[j - 1]);
    }
  }

  /** The counters count: the daemon's is the number of clients that are there after the notes
      it has been given, the table holds those that are there after all notes, and with an
      empty queue the two agree. No assertion fails. */
  lemma CountersCount(states: seq<State>, events: seq<Event>, j: nat)
    requires IsRun(states, events) && j < |states|
    ensures var s := states[j];
            && |s.clients.queue| <= |s.clients.sent| && s.clients.sent == Delivered(s.clients) + s.clients.queue
            && Alternates(s.clients.sent)
            && s.daemon.numClients == |Present(Delivered(s.clients))|
            && s.clients.table == Present(s.clients.sent)
            && (s.clients.queue == [] ==> s.daemon.numClients == |s.clients.table|)
            && s.daemon.numJobs == |s.jobs|
            && !s.daemon.aborted
  {
    InvAlways(states, events, j);
    var c := states[j].clients;
    if c.queue == [] { assert Delivered(c) == c.sent; }
  }

  // The changes that are on their way to the counter.
  function Delta(notes: seq<Note>): int {
    if notes == [] then 0
    else Delta(notes[..|notes| - 1]) + (if notes[|notes| - 1].Appeared? then 1 else -1)
  }

  lemma {:induction false} DeltaIsDifference(notes: seq<Note>, at: nat)
    requires Alternates(notes) && at <= |notes|
    ensures |Present(notes)| == |Present(notes[..at])| + Delta(notes[at..])
  {
    if at == |notes| {
      assert notes[..at] == notes;
    } else {
      var last := |notes| - 1;
      Prefixes(notes, last);
      DeltaIsDifference(notes[..last], at);
      NewsCounts(Present(notes[..last]), notes[last]);
      DeltaOneMore(notes, at);
    }
  }

  lemma DeltaOneMore(notes: seq<Note>, at: nat)
    requires at < |notes|
    ensures var last := |notes| - 1;
            Delta(notes[at..]) == Delta(notes[..last][at..]) + (if notes[last].Appeared? then 1 else -1)
  {
    assert notes[at..][..|notes[at..]| - 1] == notes[..|notes| - 1][at..];
  }

  lemma Prefixes(notes: seq<Note>, last: nat)
    requires last <= |notes| && Alternates(notes)
    ensures Alternates(notes[..last]) && forall i :: 0 <= i <= last ==> notes[..last][..i] == notes[..i]
  {
    var before := notes[..last];
    forall i | 0 <= i <= last
      ensures before[..i] == notes[..i] && (i < last ==> IsNews(Present(before[..i]), before[i]))
    {
      assert before[..i] == notes[..i];
    }
  }

  lemma NewsCounts(names: set<string>, n: Note)
    requires IsNews(names, n)
    ensures |After(names, n)| == |names| + (if n.Appeared? then 1 else -1)
  {
  }

  /** The counter and the queued changes together are the size of the table. */
  lemma CountPlusQueued(states: seq<State>, events: seq<Event>, j: nat)
    requires IsRun(states, events) && j < |states|
    ensures states[j].daemon.numClients + Delta(states[j].clients.queue) == |states[j].clients.table|
  {
    InvAlways(states, events, j);
    var c := states[j].clients;
    DeltaIsDifference(c.sent, |c.sent| - |c.queue|);
  }

  /** Whose calls are waited for: the clients are those that called and have not vanished since. */
  lemma {:induction false} ClientsAreCallers(states: seq<State>, events: seq<Event>, j: nat, name: string)
    requires IsRun(states, events) && j < |states|
    ensures name in states[j].clients.table <==>
            exists i :: 0 <= i < j && events[i] == MethodCall(name) && forall k :: i < k < j ==> events[k] != Vanished(name)
  {
    if j > 0 {
      ClientsAreCallers(states, events, j - 1, name);
      var last := events[j - 1];
      if last != MethodCall(name) && last != Vanished(name) && name in states[j - 1].clients.table {
        var i :| 0 <= i < j - 1 && events[i] == MethodCall(name) && forall k :: i < k < j - 1 ==> events[k] != Vanished(name);
        assert forall k :: i < k < j ==> events[k] != Vanished(name);
      }
    }
  }

  // Nothing that the daemon knows of keeps it.
  ghost predicate Quiet(s: State)
    requires |s.clients.queue| <= |s.clients.sent|
  {
    !s.daemon.persist && !s.daemon.nameOwned && s.jobs == {} && Present(Delivered(s.clients)) == {}
  }

  lemma QuietMeans(s: State)
    requires Inv(s)
    ensures Quiet(s) <==> IsIdle(s.daemon)
  {
  }

  /** The daemon announces that it has finished exactly when nothing that it knows of keeps it any
      longer, and again when it is told that it lost the name although nothing did before. */
  lemma FinishedMeans(states: seq<State>, events: seq<Event>, j: nat)
    requires IsRun(states, events) && j < |events|
    ensures var s, t := states[j], states[j + 1];
            && |s.clients.queue| <= |s.clients.sent| && |t.clients.queue| <= |t.clients.sent|
            && t.daemon.finished ==
                 s.daemon.finished + if Quiet(t) && (!Quiet(s) || events[j] == NameLost) then 1 else 0
  {
    InvAlways(states, events, j);
    InvAlways(states, events, j + 1);
    QuietMeans(states[j]);
    QuietMeans(states[j + 1]);
    FinishedStep(states[j], events[j]);
  }

  /** The main loop is told that a client has gone, and of those it was told of none is left. */
  ghost predicate LastLeaves(s: State, e: Event)
    requires Inv(s) && Enabled(s, e)
  {
    e == Deliver && s.clients.queue[0].Disappeared? && Present(Delivered(s.clients) + [s.clients.queue[0]]) == {}
  }

  lemma LastLeavesTold(s: State)
    requires Inv(s) && Enabled(s, Deliver)
    ensures LastLeaves(s, Deliver) <==> s.clients.queue[0].Disappeared? && s.daemon.numClients == 1
  {
    var c := s.clients;
    TailRest(c);
    PresentOneMore(Delivered(c), c.queue[0]);
    assert IsNews(Present(c.sent[..|c.sent| - |c.queue|]), c.queue[0]);
    NewsCounts(Present(Delivered(c)), c.queue[0]);
  }

  lemma NameStep(s: State, e: Event)
    requires Inv(s) && Enabled(s, e)
    ensures var d, d' := s.daemon, Step(s, e).daemon;
            if LastLeaves(s, e) && !d.persist && d.ownsName then
              !d'.ownsName && !d'.nameOwned && d'.finished == d.finished + if s.jobs == {} then 1 else 0
            else
              && d'.ownsName == (d.ownsName || e == ManagerReady)
              && d'.nameOwned == (e == NameAcquired || (d.nameOwned && e != NameLost))
  {
    if e == Deliver { LastLeavesTold(s); }
  }

  /** In every run of a daemon that does not persist and has asked for the name: when it is told that
      the last client has gone, the name is given up, and the end is announced exactly if no job
      runs. Nothing else gives up the request for the name; the bus grants the name and takes it. */
  lemma NameIsReleased(states: seq<State>, events: seq<Event>, j: nat)
    requires IsRun(states, events) && j < |events|
    ensures Inv(states[j])
    ensures var d, d' := states[j].daemon, states[j + 1].daemon;
            if LastLeaves(states[j], events[j]) && !d.persist && d.ownsName then
              !d'.ownsName && !d'.nameOwned && d'.finished == d.finished + if states[j].jobs == {} then 1 else 0
            else
              && d'.ownsName == (d.ownsName || events[j] == ManagerReady)
              && d'.nameOwned == (events[j] == NameAcquired || (d.nameOwned && events[j] != NameLost))
  {
    InvAlways(states, events, j);
    NameStep(states[j], events[j]);
  }

  // A client calls and goes while the job that it started runs on.
  lemma JobOutlivesClient(client: string) returns (states: seq<State>, events: seq<Event>)
    ensures IsRun(states, events)
    ensures states[|events|].daemon == Daemon(false, false, false, 0, 1, 0, false) && states[|events|].jobs == {0}
  {
    var s0 := Initial(false);
    var s1 := Step(s0, MethodCall(client));
    var s2 := Step(s1, Deliver);
    var s3 := Step(s2, JobLaunched(0));
    var s4 := Step(s3, Vanished(client));
    var s5 := Step(s4, Deliver);
    states, events := [s0, s1, s2, s3, s4, s5], [MethodCall(client), Deliver, JobLaunched(0), Vanished(client), Deliver];
  }

  lemma Extend(states: seq<State>, events: seq<Event>, e: Event)
    requires IsRun(states, events) && Enabled(states[|events|], e)
    ensures IsRun(states + [Step(states[|events|], e)], events + [e])
  {
  }

  /** It can be told twice with nothing in between: a job outlives the client that started it, the
      daemon asks for the name but never gets it, the job ends, and the bus says that the name is lost. */
  lemma FinishedTwice(client: string) returns (states: seq<State>, events: seq<Event>)
    ensures IsRun(states, events) && |events| >= 2
    ensures var n := |events|;
            && states[n - 1].daemon.finished == states[n - 2].daemon.finished + 1 && IsIdle(states[n - 1].daemon)
            && states[n].daemon.finished == states[n - 1].daemon.finished + 1 && events[n - 1] == NameLost
  {
    states, events := JobOutlivesClient(client);
    var s := states[|events|];
    Extend(states, events, ManagerReady);
    var s1 := Step(s, ManagerReady);
    states, events := states + [s1], events + [ManagerReady];
    Extend(states, events, JobCompleted(0));
    var s2 := Step(s1, JobCompleted(0));
    states, events := states + [s2], events + [JobCompleted(0)];
    Extend(states, events, NameLost);
    states, events := states + [Step(s2, NameLost)], events + [NameLost];
  }

  lemma FinishedStep(s: State, e: Event)
    requires Enabled(s, e) && !Step(s, e).daemon.aborted
    requires e.JobLaunched? ==> s.daemon.numJobs >= 0
    requires e == Deliver ==> s.daemon.numClients >= 0
    ensures var d, d' := s.daemon, Step(s, e).daemon;
            d'.finished == d.finished + if IsIdle(d') && (!IsIdle(d) || e == NameLost) then 1 else 0
  {
  }

  /** It never does so while a job runs, while it holds the name, or while a client is there
      that the main loop has been told of. */
  lemma FinishedIsSafe(states: seq<State>, events: seq<Event>, j: nat)
    requires IsRun(states, events) && j < |events|
    requires states[j + 1].daemon.finished > states[j].daemon.finished
    ensures var s := states[j + 1];
            && s.jobs == {} && !s.daemon.nameOwned && !s.daemon.persist
            && (s.clients.queue == [] ==> s.clients.table == {})
            && |s.clients.table| == Delta(s.clients.queue)
  {
    FinishedMeans(states, events, j);
    CountersCount(states, events, j + 1);
    CountPlusQueued(states, events, j + 1);
  }
}
