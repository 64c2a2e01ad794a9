/** A spawned command and what it holds (src/spawnedjob.c): the child, three pipes with their
    channels and sources, and the text written to it and read from it. */
module SpawnedJob {
  import opened Wrappers

  // --- State ----------------------------------------------------------------------------------

  /** The reading end of a pipe; `text` is what was read, NULL once resources are released. */
  datatype Stream = Stream(fd: int, channel: bool, source: bool, text: Option<string>)

  /** The fields of the job; `idles` are its idle sources, each with a reference to it. */
  datatype Job = Job(
    input: Option<string>, cursor: nat,
    pid: int, watch: bool,
    stdinFd: int, stdinChannel: bool, stdinSource: bool,
    out: Stream, err: Stream,
    handler: bool, idles: nat, finalized: bool)

  // What the child printed, and how much of it was taken out of the pipe.
  datatype Pipe = Pipe(printed: string, taken: nat)

  datatype Report = Report(failed: bool, out: string, err: string)

  /** What the system sees: what was put into standard input, the output pipes, the descriptors
      that were handed out and those closed again. `stray`: a signal for a process that was reaped; `fault`: the
      completion signal was emitted with texts that are NULL. */
  datatype System = System(
    stdin: string, out: Pipe, err: Pipe,
    handedOut: multiset<int>, closed: multiset<int>,
    terms: seq<int>, reapers: set<int>, reaped: set<int>, stray: bool,
    reports: seq<Report>, fault: bool)

  datatype State = State(job: Job, sys: System)

  datatype Spawning = AlreadyCancelled | Fails | Spawns(pid: int, stdin: int, stdout: int, stderr: int)

  datatype Event =
    | StdinReady(n: nat)
    | ChildPrints(s: string, toErr: bool)
    | OutReady(n: nat)
    | ErrReady(n: nat)
    | ChildExits(failed: bool, outEnds: bool, errEnds: bool)
    | Cancelled
    | IdleRuns
    | Finalize
    | ReaperRuns(pid: int)

  // --- Construction -----------------------------------------------------------------------------

  predicate Possible(how: Spawning) {
    how.Spawns? ==> how.pid > 0 && how.stdin >= 0 && how.stdout >= 0 && how.stderr >= 0
  }

  const CLOSED := Stream(-1, false, false, Some(""))

  function Opened(fd: int): Stream {
    Stream(fd, true, true, Some(""))
  }

  function Constructed(input: Option<string>, how: Spawning): State {
    var sys := System("", Pipe("", 0), Pipe("", 0), multiset{}, multiset{}, [], {}, {}, false, [], false);
    match how
    case AlreadyCancelled =>
      State(Job(input, 0, 0, false, -1, false, false, CLOSED, CLOSED, false, 1, false), sys)
    case Fails =>
      State(Job(input, 0, 0, false, -1, false, false, CLOSED, CLOSED, true, 1, false), sys)
    case Spawns(pid, i, o, e) =>
      var in' := if input.Some? then i else -1;
      State(Job(input, 0, pid, true, in', input.Some?, input.Some?, Opened(o), Opened(e), true, 0, false),
            sys.(handedOut := One(in') + One(o) + One(e)))
  }

  // The descriptor in a field, unless that is -1.
  function One(fd: int): multiset<int> {
    if fd == -1 then multiset{} else multiset{fd}
  }

  // --- Steps ------------------------------------------------------------------------------------

  function Close(sys: System, fd: int): System {
    if fd == -1 then sys else sys.(closed := sys.closed + multiset{fd})
  }

  function StdinWritten(s: State, n: nat): State
    requires s.job.input.Some? && s.job.cursor + n <= |s.job.input.value|
  {
    var j := s.job;
    if j.cursor == |j.input.value| then
      State(j.(stdinChannel := false, stdinSource := false, stdinFd := -1), Close(s.sys, j.stdinFd))
    else
      State(j.(cursor := j.cursor + n),
            s.sys.(stdin := s.sys.stdin + j.input.value[j.cursor..j.cursor + n]))
  }

  function Take(t: Stream, p: Pipe, n: nat): Stream
    requires p.taken + n <= |p.printed|
  {
    if t.text.Some? then t.(text := Some(t.text.value + p.printed[p.taken..p.taken + n])) else t
  }

  function Emitted(s: State, failed: bool): State {
    var j := s.job;
    if j.out.text.Some? && j.err.text.Some? then
      s.(sys := s.sys.(reports := s.sys.reports + [Report(failed, j.out.text.value, j.err.text.value)]))
    else s.(sys := s.sys.(fault := true))
  }

  function Terminated(s: State): State {
    if s.job.pid == 0 then s
    else State(s.job.(pid := 0),
               s.sys.(terms := s.sys.terms + [s.job.pid], reapers := s.sys.reapers + {s.job.pid},
                      stray := s.sys.stray || s.job.pid in s.sys.reaped))
  }

  const RELEASED := Stream(-1, false, false, None)

  function Released(s: State): State {
    var t := Terminated(s.(job := s.job.(watch := false)));
    State(t.job.(stdinFd := -1, stdinChannel := false, stdinSource := false,
                 out := RELEASED, err := RELEASED, handler := false),
          Close(Close(Close(t.sys, s.job.stdinFd), s.job.out.fd), s.job.err.fd))
  }

  // The rest of the pipe is read if its end can be reached without blocking.
  function TakeRest(t: Stream, p: Pipe, ends: bool): Stream
    requires p.taken <= |p.printed|
  {
    if ends then Take(t, p, |p.printed| - p.taken) else t
  }

  function Emptied(p: Pipe, ends: bool): Pipe {
    if ends then p.(taken := |p.printed|) else p
  }

  // The child is gone: the rest of its output is read and the signal emitted.
  function Reported(s: State, failed: bool, outEnds: bool, errEnds: bool): State
    requires PipesOk(s.sys)
  {
    Emitted(State(s.job.(out := TakeRest(s.job.out, s.sys.out, outEnds),
                         err := TakeRest(s.job.err, s.sys.err, errEnds)),
                  s.sys.(out := Emptied(s.sys.out, outEnds), err := Emptied(s.sys.err, errEnds),
                         reaped := s.sys.reaped + {s.job.pid})), failed)
  }

  function ExitSeen(s: State, failed: bool, outEnds: bool, errEnds: bool): State
    requires PipesOk(s.sys)
  {
    var told := Reported(s, failed, outEnds, errEnds);
    Released(told.(job := told.job.(pid := 0, watch := false)))
  }

  predicate PipesOk(sys: System) {
    sys.out.taken <= |sys.out.printed| && sys.err.taken <= |sys.err.printed|
  }

  /** A callback runs only while its source is there, and the job is finalized only when no
      idle source refers to it. */
  predicate Enabled(s: State, e: Event) {
    && PipesOk(s.sys)
    && match e
       case StdinReady(n) => s.job.stdinSource && s.job.input.Some? && s.job.cursor + n <= |s.job.input.value|
       case ChildPrints(_, _) => true
       case OutReady(n) => s.job.out.source && s.sys.out.taken + n <= |s.sys.out.printed|
       case ErrReady(n) => s.job.err.source && s.sys.err.taken + n <= |s.sys.err.printed|
       case ChildExits(_, _, _) => s.job.watch
       case Cancelled => s.job.handler
       case IdleRuns => s.job.idles > 0
       case Finalize => s.job.idles == 0 && !s.job.finalized
       case ReaperRuns(pid) => pid in s.sys.reapers
  }

  function Step(s: State, e: Event): State
    requires Enabled(s, e)
  {
    match e
    case StdinReady(n) => StdinWritten(s, n)
    case ChildPrints(t, toErr) =>
      if toErr then s.(sys := s.sys.(err := s.sys.err.(printed := s.sys.err.printed + t)))
      else s.(sys := s.sys.(out := s.sys.out.(printed := s.sys.out.printed + t)))
    case OutReady(n) =>
      State(s.job.(out := Take(s.job.out, s.sys.out, n)), s.sys.(out := s.sys.out.(taken := s.sys.out.taken + n)))
    case ErrReady(n) =>
      State(s.job.(err := Take(s.job.err, s.sys.err, n)), s.sys.(err := s.sys.err.(taken := s.sys.err.taken + n)))
    case ChildExits(failed, outEnds, errEnds) => ExitSeen(s, failed, outEnds, errEnds)
    case Cancelled => s.(job := s.job.(idles := s.job.idles + 1))
    case IdleRuns => Emitted(s.(job := s.job.(idles := s.job.idles - 1)), true)
    case Finalize => var t := Released(s); t.(job := t.job.(finalized := true))
    case ReaperRuns(pid) =>
      s.(sys := s.sys.(reapers := s.sys.reapers - {pid}, reaped := s.sys.reaped + {pid}))
  }

  // --- The job ----------------------------------------------------------------------------------

  class StorageSpawnedJob {
    const input: Option<string>
    var cursor: nat
    var pid: int
    var watch: bool
    var stdinFd: int
    var stdinChannel: bool
    var stdinSource: bool
    var out: Stream
    var err: Stream
    var handler: bool
    var idles: nat
    var finalized: bool
    var sys: System

    ghost function View(): State
      reads this
    {
      State(Job(input, cursor, pid, watch, stdinFd, stdinChannel, stdinSource, out, err, handler, idles, finalized), sys)
    }

    constructor (input: Option<string>, how: Spawning)
      requires Possible(how)
      ensures View() == Constructed(input, how)
    {
      this.input := input;
      cursor, watch, pid := 0, false, 0;
      out, err, finalized := CLOSED, CLOSED, false;
      stdinFd, stdinChannel, stdinSource := -1, false, false;
      handler := !how.AlreadyCancelled?;
      idles := if how.Spawns? then 0 else 1;
      var in' := -1;
      var fds := multiset{};
      if how.Spawns? {
        pid, watch := how.pid, true;
        if input.Some? {
          in' := how.stdin;
          stdinFd, stdinChannel, stdinSource := how.stdin, true, true;
        }
        out, err := Opened(how.stdout), Opened(how.stderr);
        fds := One(in') + One(how.stdout) + One(how.stderr);
      }
      sys := System("", Pipe("", 0), Pipe("", 0), fds, multiset{}, [], {}, {}, false, [], false);
    }

    method CloseFd(fd: int)
      modifies this`sys
      ensures sys == Close(old(sys), fd)
    {
      if fd != -1 {
        sys := sys.(closed := sys.closed + multiset{fd});
      }
    }

    method WriteChildStdin(n: nat)
      requires Enabled(View(), StdinReady(n))
      modifies this
      ensures View() == Step(old(View()), StdinReady(n))
    {
      if cursor == |input.value| {
        stdinChannel := false;
        stdinSource := false;
        CloseFd(stdinFd);
        stdinFd := -1;
        return;
      }
      sys := sys.(stdin := sys.stdin + input.value[cursor..cursor + n]);
      cursor := cursor + n;
    }

    method ReadChildStdout(n: nat)
      requires Enabled(View(), OutReady(n))
      modifies this
      ensures View() == Step(old(View()), OutReady(n))
    {
      out := Take(out, sys.out, n);
      sys := sys.(out := sys.out.(taken := sys.out.taken + n));
    }

    method ReadChildStderr(n: nat)
      requires Enabled(View(), ErrReady(n))
      modifies this
      ensures View() == Step(old(View()), ErrReady(n))
    {
      err := Take(err, sys.err, n);
      sys := sys.(err := sys.err.(taken := sys.err.taken + n));
    }

    method ReadToEnd(outEnds: bool, errEnds: bool)
      requires PipesOk(sys)
      modifies this`out, this`err, this`sys
      ensures out == TakeRest(old(out), old(sys).out, outEnds) && err == TakeRest(old(err), old(sys).err, errEnds)
      ensures sys == old(sys).(out := Emptied(old(sys).out, outEnds), err := Emptied(old(sys).err, errEnds))
    {
      if outEnds {
        out := Take(out, sys.out, |sys.out.printed| - sys.out.taken);
        sys := sys.(out := sys.out.(taken := |sys.out.printed|));
      }
      if errEnds {
        err := Take(err, sys.err, |sys.err.printed| - sys.err.taken);
        sys := sys.(err := sys.err.(taken := |sys.err.printed|));
      }
    }

    method EmitCompleted(failed: bool)
      modifies this`sys
      ensures View() == Emitted(old(View()), failed)
    {
      if out.text.Some? && err.text.Some? {
        sys := sys.(reports := sys.reports + [Report(failed, out.text.value, err.text.value)]);
      } else {
        sys := sys.(fault := true);
      }
    }

    method ChildWatchCb(failed: bool, outEnds: bool, errEnds: bool)
      requires Enabled(View(), ChildExits(failed, outEnds, errEnds))
      modifies this
      ensures View() == Step(old(View()), ChildExits(failed, outEnds, errEnds))
    {
      ReportExit(failed, outEnds, errEnds);
      ForgetChild();
      ReleaseResources();
    }

    method ForgetChild()
      modifies this`pid, this`watch
      ensures View() == old(View()).(job := old(View()).job.(pid := 0, watch := false))
    {
      pid := 0;
      watch := false;
    }

    method ReportExit(failed: bool, outEnds: bool, errEnds: bool)
      requires PipesOk(sys)
      modifies this`out, this`err, this`sys
      ensures View() == Reported(old(View()), failed, outEnds, errEnds)
    {
      sys := sys.(reaped := sys.reaped + {pid});
      ReadToEnd(outEnds, errEnds);
      EmitCompleted(failed);
    }

    method OnCancelled()
      requires Enabled(View(), Cancelled)
      modifies this`idles
      ensures View() == Step(old(View()), Cancelled)
    {
      idles := idles + 1;
    }

    method EmitCompletedInIdle()
      requires Enabled(View(), IdleRuns)
      modifies this
      ensures View() == Step(old(View()), IdleRuns)
    {
      idles := idles - 1;
      EmitCompleted(true);
    }

    method KillChild()
      modifies this`pid, this`sys
      ensures View() == Terminated(old(View()))
    {
      if pid != 0 {
        sys := sys.(terms := sys.terms + [pid], reapers := sys.reapers + {pid}, stray := sys.stray || pid in sys.reaped);
        pid := 0;
      }
    }

    method DropChannels()
      modifies this
      ensures View() == old(View()).(job := old(View()).job.(stdinChannel := false, stdinSource := false,
                          out := Stream(old(out).fd, false, false, None), err := Stream(old(err).fd, false, false, None)))
    {
      out, err := out.(text := None), err.(text := None);
      stdinChannel, stdinSource := false, false;
      out := out.(channel := false, source := false);
      err := err.(channel := false, source := false);
    }

    method CloseStdin()
      modifies this`stdinFd, this`sys
      ensures stdinFd == -1 && sys == Close(old(sys), old(stdinFd))
    {
      CloseFd(stdinFd);
      stdinFd := -1;
    }

    method CloseOutputs()
      modifies this`out, this`err, this`sys
      ensures out == old(out).(fd := -1) && err == old(err).(fd := -1)
      ensures sys == Close(Close(old(sys), old(out).fd), old(err).fd)
    {
      CloseFd(out.fd);
      out := out.(fd := -1);
      CloseFd(err.fd);
      err := err.(fd := -1);
    }

    method CloseFds()
      requires !out.channel && !out.source && out.text.None? && !err.channel && !err.source && err.text.None?
      modifies this`stdinFd, this`out, this`err, this`sys
      ensures View() == State(old(View()).job.(stdinFd := -1, out := RELEASED, err := RELEASED),
                              Close(Close(Close(old(sys), old(stdinFd)), old(out).fd), old(err).fd))
    {
      CloseStdin();
      CloseOutputs();
    }

    method ReleaseResources()
      modifies this
      ensures View() == Released(old(View()))
    {
      watch := false;
      KillChild();
      DropChannels();
      CloseFds();
      handler := false;
    }

    method Finalize()
      requires Enabled(View(), Event.Finalize)
      modifies this
      ensures View() == Step(old(View()), Event.Finalize)
    {
      ReleaseResources();
      finalized := true;
    }
  }

  // --- What holds in every run ----------------------------------------------------------------

  ghost predicate IsRun(states: seq<State>, events: seq<Event>, input: Option<string>, how: Spawning) {
    && |states| == |events| + 1
    && Possible(how) && states[0] == Constructed(input, how)
    && forall i :: 0 <= i < |events| ==>
         Enabled(states[i], events[i]) && states[i + 1] == Step(states[i], events[i])
  }

  // The descriptors that the fields hold.
  function Holds(j: Job): multiset<int> {
    One(j.stdinFd) + One(j.out.fd) + One(j.err.fd)
  }

  predicate StreamInv(t: Stream, p: Pipe) {
    && (t.channel <==> t.fd != -1) && (t.source <==> t.fd != -1)
    && p.taken <= |p.printed|
    && (t.text.Some? ==> t.text.value == p.printed[..p.taken])
  }

  predicate StdinInv(s: State) {
    var j := s.job;
    && (j.stdinChannel <==> j.stdinFd != -1) && (j.stdinSource <==> j.stdinFd != -1)
    && (j.input.None? ==> j.stdinFd == -1)
    && (j.input.Some? ==> j.cursor <= |j.input.value| && s.sys.stdin == j.input.value[..j.cursor])
    && (j.watch && j.stdinFd == -1 && j.input.Some? ==> j.cursor == |j.input.value|)
  }

  predicate ChildInv(s: State) {
    var j, sys := s.job, s.sys;
    && (j.watch <==> j.pid != 0)
    && (j.pid != 0 ==> sys.terms == [] && sys.reaped == {} && sys.reapers == {} && j.out.text.Some? && j.err.text.Some?)
    && |sys.terms| <= 1 && !sys.stray
    && (j.out.text.None? ==> j == j.(pid := 0, watch := false, stdinFd := -1, out := RELEASED, err := RELEASED, handler := false))
    && (j.out.text.None? <==> j.err.text.None?)
    && (j.finalized ==> j.idles == 0 && j.out.text.None?)
  }

  predicate Inv(s: State) {
    && StreamInv(s.job.out, s.sys.out) && StreamInv(s.job.err, s.sys.err)
    && StdinInv(s) && ChildInv(s)
    && FdInv(s)
  }

  predicate FdInv(s: State) {
    s.sys.handedOut == s.sys.closed + Holds(s.job)
  }

  lemma Regroup(m: multiset<int>, a: multiset<int>, b: multiset<int>, c: multiset<int>)
    ensures m + a + b + c == m + (a + b + c)
  {
  }

  lemma CloseOne(sys: System, fd: int)
    ensures Close(sys, fd) == sys.(closed := sys.closed + One(fd))
  {
    assert sys.closed + multiset{} == sys.closed;
  }

  lemma CloseThree(sys: System, a: int, b: int, c: int)
    ensures Close(Close(Close(sys, a), b), c) == sys.(closed := sys.closed + One(a) + One(b) + One(c))
  {
    CloseOne(sys, a);
    CloseOne(Close(sys, a), b);
    CloseOne(Close(Close(sys, a), b), c);
  }

  lemma ReleaseClosesAll(s: State)
    requires FdInv(s)
    ensures Released(s).sys.closed == s.sys.handedOut && Holds(Released(s).job) == multiset{}
    ensures Released(s).sys.handedOut == s.sys.handedOut
  {
    var t := Terminated(s.(job := s.job.(watch := false)));
    CloseThree(t.sys, s.job.stdinFd, s.job.out.fd, s.job.err.fd);
    Regroup(s.sys.closed, One(s.job.stdinFd), One(s.job.out.fd), One(s.job.err.fd));
  }

  lemma ReleaseKeepsInv(s: State)
    requires StreamInv(s.job.out, s.sys.out) && StreamInv(s.job.err, s.sys.err)
    requires StdinInv(s) && FdInv(s)
    requires s.job.pid != 0 ==> s.sys.terms == [] && s.job.pid !in s.sys.reaped
    requires |s.sys.terms| <= 1 && !s.sys.stray && !s.job.finalized
    ensures Inv(Released(s))
  {
    ReleaseClosesAll(s);
  }

  lemma FinalizeKeepsInv(s: State)
    requires Inv(s) && s.job.idles == 0 && s.job.out.text.None?
    ensures Inv(s.(job := s.job.(finalized := true)))
  {
  }

  lemma StdinKeepsInv(s: State, n: nat)
    requires Inv(s) && Enabled(s, StdinReady(n))
    ensures Inv(StdinWritten(s, n))
  {
    if s.job.cursor == |s.job.input.value| {
      StdinEnds(s);
    } else {
      StdinMoves(s, n);
    }
  }

  lemma StdinEnds(s: State)
    requires Inv(s) && s.job.stdinSource && s.job.input.Some? && s.job.cursor == |s.job.input.value|
    ensures Inv(StdinWritten(s, 0))
  {
    CloseOne(s.sys, s.job.stdinFd);
    Regroup(s.sys.closed, One(s.job.stdinFd), One(s.job.out.fd), One(s.job.err.fd));
    Regroup(s.sys.closed + One(s.job.stdinFd), One(-1), One(s.job.out.fd), One(s.job.err.fd));
  }

  lemma StdinMoves(s: State, n: nat)
    requires Inv(s) && s.job.input.Some? && s.job.cursor < |s.job.input.value| && s.job.cursor + n <= |s.job.input.value|
    requires s.job.stdinSource
    ensures Inv(StdinWritten(s, n))
  {
    var text := s.job.input.value;
    assert text[..s.job.cursor] + text[s.job.cursor..s.job.cursor + n] == text[..s.job.cursor + n];
  }

  lemma TakeKeepsText(t: Stream, p: Pipe, n: nat)
    requires StreamInv(t, p) && p.taken + n <= |p.printed|
    ensures StreamInv(Take(t, p, n), p.(taken := p.taken + n))
  {
    assert p.printed[..p.taken] + p.printed[p.taken..p.taken + n] == p.printed[..p.taken + n];
  }

  lemma RestKeepsText(t: Stream, p: Pipe, ends: bool)
    requires StreamInv(t, p)
    ensures StreamInv(TakeRest(t, p, ends), Emptied(p, ends)) && TakeRest(t, p, ends).fd == t.fd
  {
    TakeKeepsText(t, p, |p.printed| - p.taken);
  }

  lemma ExitKeepsInv(s: State, failed: bool, outEnds: bool, errEnds: bool)
    requires Inv(s) && s.job.watch
    ensures Inv(ExitSeen(s, failed, outEnds, errEnds))
  {
    RestKeepsText(s.job.out, s.sys.out, outEnds);
    RestKeepsText(s.job.err, s.sys.err, errEnds);
    var told := Reported(s, failed, outEnds, errEnds);
    ReleaseKeepsInv(told.(job := told.job.(pid := 0, watch := false)));
  }

  lemma PrintKeepsInv(s: State, t: string, toErr: bool)
    requires Inv(s) && Enabled(s, ChildPrints(t, toErr))
    ensures Inv(Step(s, ChildPrints(t, toErr)))
  {
    var p := if toErr then s.sys.err else s.sys.out;
    assert (p.printed + t)[..p.taken] == p.printed[..p.taken];
  }

  lemma ReadKeepsInv(s: State, n: nat)
    requires Inv(s)
    ensures Enabled(s, OutReady(n)) ==> Inv(Step(s, OutReady(n)))
    ensures Enabled(s, ErrReady(n)) ==> Inv(Step(s, ErrReady(n)))
  {
    if Enabled(s, OutReady(n)) { TakeKeepsText(s.job.out, s.sys.out, n); }
    if Enabled(s, ErrReady(n)) { TakeKeepsText(s.job.err, s.sys.err, n); }
  }

  lemma FinalizeStepKeepsInv(s: State)
    requires Inv(s) && Enabled(s, Finalize)
    ensures Inv(Step(s, Finalize))
  {
    ReleaseKeepsInv(s);
    FinalizeKeepsInv(Released(s));
  }

  lemma IdleKeepsInv(s: State)
    requires Inv(s) && Enabled(s, IdleRuns)
    ensures Inv(Step(s, IdleRuns))
  {
    var t := s.(job := s.job.(idles := s.job.idles - 1));
    assert Inv(t);
    EmitKeepsInv(t, true);
  }

  lemma EmitKeepsInv(s: State, failed: bool)
    requires Inv(s)
    ensures Inv(Emitted(s, failed))
  {
  }

  lemma CancelKeepsInv(s: State)
    requires Inv(s) && Enabled(s, Cancelled)
    ensures Inv(Step(s, Cancelled))
  {
  }

  lemma ReaperKeepsInv(s: State, pid: int)
    requires Inv(s) && Enabled(s, ReaperRuns(pid))
    ensures Inv(Step(s, ReaperRuns(pid)))
  {
  }

  lemma InvStep(s: State, e: Event)
    requires Inv(s) && Enabled(s, e)
    ensures Inv(Step(s, e))
  {
    match e
    case StdinReady(n) => StdinKeepsInv(s, n);
    case ChildPrints(t, toErr) => PrintKeepsInv(s, t, toErr);
    case OutReady(n) => ReadKeepsInv(s, n);
    case ErrReady(n) => ReadKeepsInv(s, n);
    case ChildExits(failed, outEnds, errEnds) => ExitKeepsInv(s, failed, outEnds, errEnds);
    case Finalize => FinalizeStepKeepsInv(s);
    case Cancelled => CancelKeepsInv(s);
    case IdleRuns => IdleKeepsInv(s);
    case ReaperRuns(pid) => ReaperKeepsInv(s, pid);
  }

  lemma InitialInv(input: Option<string>, how: Spawning)
    requires Possible(how)
    ensures Inv(Constructed(input, how)) && Constructed(input, how).job.input == input
  {
  }

  lemma {:induction false} InvAlways(states: seq<State>, events: seq<Event>, input: Option<string>, how: Spawning, j: nat)
    requires IsRun(states, events, input, how) && j < |states|
    ensures Inv(states[j]) && states[j].job.input == input
  {
    if j == 0 {
      InitialInv(input, how);
    } else {
      InvAlways(states, events, input, how, j - 1);
      InvStep(states[j - 1], events[j - 1]);
      InputStays(states[j - 1], events[j - 1]);
    }
  }

  lemma InputStays(s: State, e: Event)
    requires Enabled(s, e)
    ensures Step(s, e).job.input == s.job.input
  {
    if e.ChildExits? {
      var told := Reported(s, e.failed, e.outEnds, e.errEnds);
      assert told.job.input == s.job.input;
    }
  }

  // --- What is kept ---------------------------------------------------------------------------

  /** What was written and what is left of the input are the input; and while the child runs,
      its standard input is closed only after everything was written. */
  lemma InputIsAccounted(states: seq<State>, events: seq<Event>, input: Option<string>, how: Spawning, j: nat)
    requires IsRun(states, events, input, how) && j < |states| && input.Some?
    ensures var s := states[j];
            && s.job.cursor <= |input.value| && s.sys.stdin + input.value[s.job.cursor..] == input.value
            && (s.job.pid != 0 && s.job.stdinFd == -1 ==> s.sys.stdin == input.value)
  {
    InvAlways(states, events, input, how, j);
  }

  /** Every descriptor is either still in its field or was closed exactly once, and at the
      latest finalization closes it. */
  lemma DescriptorsAreClosedOnce(states: seq<State>, events: seq<Event>, input: Option<string>, how: Spawning, j: nat, fd: int)
    requires IsRun(states, events, input, how) && j < |states|
    ensures var s := states[j];
            && s.sys.closed[fd] + Holds(s.job)[fd] == s.sys.handedOut[fd]
            && (s.job.finalized ==> s.sys.closed[fd] == s.sys.handedOut[fd])
  {
    InvAlways(states, events, input, how, j);
  }

  /** No callback finds its channel gone, and nothing is left to call a finalized job. */
  lemma CallbacksAreSafe(states: seq<State>, events: seq<Event>, input: Option<string>, how: Spawning, j: nat)
    requires IsRun(states, events, input, how) && j < |states|
    ensures var k := states[j].job;
            && (k.stdinSource ==> k.stdinChannel && k.stdinFd != -1 && k.input.Some?)
            && (k.out.source ==> k.out.channel && k.out.text.Some?) && (k.err.source ==> k.err.channel && k.err.text.Some?)
            && (k.watch ==> k.out.text.Some? && k.err.text.Some?)
            && (k.finalized ==> !k.stdinSource && !k.out.source && !k.err.source && !k.watch && !k.handler && k.idles == 0)
  {
    InvAlways(states, events, input, how, j);
  }

  // --- How it ends ----------------------------------------------------------------------------

  predicate Exited(events: seq<Event>, j: nat)
    requires j <= |events|
  {
    exists i :: 0 <= i < j && events[i].ChildExits?
  }

  // What an event does to the signs of the end.
  predicate Ends(s: State, e: Event, t: State) {
    && t.job.pid == (if e.ChildExits? || e.Finalize? then 0 else s.job.pid)
    && (t.job.out.text.None? <==> s.job.out.text.None? || e.ChildExits? || e.Finalize?)
    && (t.job.finalized <==> s.job.finalized || e.Finalize?)
    && t.sys.terms == s.sys.terms + (if e.Finalize? && s.job.pid != 0 then [s.job.pid] else [])
    && (t.sys.fault <==> s.sys.fault || (e.IdleRuns? && s.job.out.text.None?))
  }

  lemma ExitEnds(s: State, e: Event)
    requires Inv(s) && Enabled(s, e) && e.ChildExits?
    ensures Ends(s, e, Step(s, e))
  {
    var told := Reported(s, e.failed, e.outEnds, e.errEnds);
    assert told.sys.terms == s.sys.terms && told.sys.fault == s.sys.fault;
  }

  lemma FinalizeEnds(s: State)
    requires Inv(s) && Enabled(s, Finalize)
    ensures Ends(s, Finalize, Step(s, Finalize))
  {
  }

  lemma OthersDoNotEnd(s: State, e: Event)
    requires Inv(s) && Enabled(s, e) && !e.ChildExits? && !e.Finalize?
    ensures Ends(s, e, Step(s, e))
  {
  }

  lemma EndStep(s: State, e: Event)
    requires Inv(s) && Enabled(s, e)
    ensures Ends(s, e, Step(s, e))
  {
    if e.ChildExits? {
      ExitEnds(s, e);
    } else if e.Finalize? {
      FinalizeEnds(s);
    } else {
      OthersDoNotEnd(s, e);
    }
  }

  /** The child is signalled exactly if the job is finalized before its exit was seen: once,
      and never after it was reaped. */
  lemma {:induction false} TerminatedMeans(states: seq<State>, events: seq<Event>, input: Option<string>, how: Spawning, j: nat)
    requires IsRun(states, events, input, how) && j < |states|
    ensures var s := states[j];
            && s.job.pid == (if how.Spawns? && !Exited(events, j) && !s.job.finalized then how.pid else 0)
            && s.sys.terms == (if how.Spawns? && !Exited(events, j) && s.job.finalized then [how.pid] else [])
            && !s.sys.stray
            && (s.job.out.text.None? <==> Exited(events, j) || s.job.finalized)
  {
    InvAlways(states, events, input, how, j);
    if j > 0 {
      TerminatedMeans(states, events, input, how, j - 1);
      InvAlways(states, events, input, how, j - 1);
      EndStep(states[j - 1], events[j - 1]);
      ExitedOneMore(events, j - 1);
    }
  }

  /** After the exit of the child was seen, finalization finds everything released: it closes
      nothing, signals nothing and only marks the job. */
  lemma FinalizationAfterExit(states: seq<State>, events: seq<Event>, input: Option<string>, how: Spawning, j: nat)
    requires IsRun(states, events, input, how) && j < |events| && Exited(events, j) && events[j] == Finalize
    ensures states[j + 1].sys == states[j].sys && states[j + 1].job == states[j].job.(finalized := true)
  {
    InvAlways(states, events, input, how, j);
    TerminatedMeans(states, events, input, how, j);
    NothingToRelease(states[j]);
  }

  lemma NothingToRelease(s: State)
    requires Inv(s) && s.job.out.text.None?
    ensures Released(s) == s
  {
    CloseThree(s.sys, -1, -1, -1);
    assert s.sys.closed + One(-1) + One(-1) + One(-1) == s.sys.closed;
  }

  lemma ExitedOneMore(events: seq<Event>, j: nat)
    requires j < |events|
    ensures Exited(events, j + 1) <==> Exited(events, j) || events[j].ChildExits?
  {
  }

  // An idle source of a cancelled job runs after the exit of the child was seen.
  predicate IsLate(events: seq<Event>, i: nat)
    requires i < |events|
  {
    events[i].IdleRuns? && Exited(events, i)
  }

  ghost predicate WasLate(events: seq<Event>, j: nat)
    requires j <= |events|
  {
    exists i :: 0 <= i < j && IsLate(events, i)
  }

  lemma WasLateOneMore(events: seq<Event>, j: nat)
    requires j < |events|
    ensures WasLate(events, j + 1) <==> WasLate(events, j) || IsLate(events, j)
  {
  }

  lemma FaultStep(states: seq<State>, events: seq<Event>, input: Option<string>, how: Spawning, i: nat)
    requires IsRun(states, events, input, how) && i < |events|
    ensures states[i + 1].sys.fault <==> states[i].sys.fault || IsLate(events, i)
  {
    InvAlways(states, events, input, how, i);
    TerminatedMeans(states, events, input, how, i);
    EndStep(states[i], events[i]);
  }

  /** The completion signal is emitted without texts exactly if that happens; the source relies
      on its not happening. */
  lemma {:induction false} FaultMeans(states: seq<State>, events: seq<Event>, input: Option<string>, how: Spawning, j: nat)
    requires IsRun(states, events, input, how) && j < |states|
    ensures states[j].sys.fault <==> WasLate(events, j)
  {
    if j > 0 {
      FaultMeans(states, events, input, how, j - 1);
      FaultStep(states, events, input, how, j - 1);
      WasLateOneMore(events, j - 1);
    }
  }

  lemma ReleaseKeepsRest(s: State)
    ensures var t := Released(s);
            t.job.idles == s.job.idles && t.job.out == RELEASED && t.sys.out == s.sys.out && t.sys.err == s.sys.err
  {
  }

  lemma ReportKeepsIdles(s: State, failed: bool, outEnds: bool, errEnds: bool)
    requires PipesOk(s.sys)
    ensures var t := Reported(s, failed, outEnds, errEnds); t.job.idles == s.job.idles && PipesOk(t.sys)
  {
  }

  lemma ExitKeepsIdles(s: State, failed: bool, outEnds: bool, errEnds: bool)
    requires PipesOk(s.sys)
    ensures var t := ExitSeen(s, failed, outEnds, errEnds); t.job.idles == s.job.idles && t.job.out == RELEASED && PipesOk(t.sys)
  {
    ReportKeepsIdles(s, failed, outEnds, errEnds);
    var told := Reported(s, failed, outEnds, errEnds);
    ReleaseKeepsRest(told.(job := told.job.(pid := 0, watch := false)));
  }

  lemma Extend(states: seq<State>, events: seq<Event>, input: Option<string>, how: Spawning, e: Event)
    requires IsRun(states, events, input, how) && Enabled(states[|events|], e)
    ensures IsRun(states + [Step(states[|events|], e)], events + [e], input, how)
  {
    var longer, more := states + [Step(states[|events|], e)], events + [e];
    assert longer[0] == states[0];
    forall i | 0 <= i < |more|
      ensures Enabled(longer[i], more[i]) && longer[i + 1] == Step(longer[i], more[i])
    {
      assert longer[i] == states[i];
      if i < |events| {
        assert more[i] == events[i] && longer[i + 1] == states[i + 1];
      }
    }
  }

  /** That can happen: the job is cancelled, the child exits, and then the idle source runs. */
  lemma LateIdle(pid: int, out: int, err: int) returns (states: seq<State>, events: seq<Event>)
    requires pid > 0 && out >= 0 && err >= 0
    ensures IsRun(states, events, None, Spawns(pid, 0, out, err)) && states[|events|].sys.fault
  {
    var how := Spawns(pid, 0, out, err);
    var s0 := Constructed(None, how);
    Extend([s0], [], None, how, Cancelled);
    var s1 := Step(s0, Cancelled);
    var exit := ChildExits(false, false, false);
    ExitKeepsIdles(s1, false, false, false);
    Extend([s0] + [s1], [] + [Cancelled], None, how, exit);
    var s2 := Step(s1, exit);
    Extend([s0] + [s1] + [s2], [] + [Cancelled] + [exit], None, how, IdleRuns);
    states, events := [s0] + [s1] + [s2] + [Step(s2, IdleRuns)], [] + [Cancelled] + [exit] + [IdleRuns];
  }

  /** The exit of the child is reported once, with its output: all of it where the pipe was at
      its end, else what was read before. */
  lemma OutputIsReported(states: seq<State>, events: seq<Event>, input: Option<string>, how: Spawning, j: nat)
    requires IsRun(states, events, input, how) && j < |events| && events[j].ChildExits?
    ensures !Exited(events, j)
    ensures var s, e := states[j], events[j];
            PipesOk(s.sys) &&
            states[j + 1].sys.reports ==
              s.sys.reports + [Report(e.failed,
                                      if e.outEnds then s.sys.out.printed else s.sys.out.printed[..s.sys.out.taken],
                                      if e.errEnds then s.sys.err.printed else s.sys.err.printed[..s.sys.err.taken])]
  {
    InvAlways(states, events, input, how, j);
    TerminatedMeans(states, events, input, how, j);
    ReportHas(states[j], events[j].failed, events[j].outEnds, events[j].errEnds);
  }

  lemma ReportHas(s: State, failed: bool, outEnds: bool, errEnds: bool)
    requires Inv(s) && s.job.watch
    ensures ExitSeen(s, failed, outEnds, errEnds).sys.reports ==
              s.sys.reports + [Report(failed,
                                      if outEnds then s.sys.out.printed else s.sys.out.printed[..s.sys.out.taken],
                                      if errEnds then s.sys.err.printed else s.sys.err.printed[..s.sys.err.taken])]
  {
    assert s.sys.out.printed[..|s.sys.out.printed|] == s.sys.out.printed;
    assert s.sys.err.printed[..|s.sys.err.printed|] == s.sys.err.printed;
    TakeKeepsText(s.job.out, s.sys.out, |s.sys.out.printed| - s.sys.out.taken);
    TakeKeepsText(s.job.err, s.sys.err, |s.sys.err.printed| - s.sys.err.taken);
  }

  /** A job that was cancelled, or that could not be started, reports a failure with the output
      read so far, once for each idle source that runs before the exit is seen. Apart from the
      exit nothing else reports. */
  lemma FailureIsReported(states: seq<State>, events: seq<Event>, input: Option<string>, how: Spawning, j: nat)
    requires IsRun(states, events, input, how) && j < |events| && !events[j].ChildExits?
    ensures var s := states[j];
            PipesOk(s.sys) &&
            states[j + 1].sys.reports ==
              s.sys.reports + if events[j].IdleRuns? && !Exited(events, j) then
                                [Report(true, s.sys.out.printed[..s.sys.out.taken], s.sys.err.printed[..s.sys.err.taken])]
                              else []
  {
    InvAlways(states, events, input, how, j);
    TerminatedMeans(states, events, input, how, j);
    IdlesBeforeFinal(states[j]);
    FailureStep(states[j], events[j]);
  }

  lemma IdleReports(s: State)
    requires Inv(s) && Enabled(s, IdleRuns)
    ensures Step(s, IdleRuns).sys.reports ==
              s.sys.reports + if s.job.out.text.Some? then
                                [Report(true, s.sys.out.printed[..s.sys.out.taken], s.sys.err.printed[..s.sys.err.taken])]
                              else []
  {
    assert s.sys.reports + [] == s.sys.reports;
    assert StreamInv(s.job.out, s.sys.out) && StreamInv(s.job.err, s.sys.err) && ChildInv(s);
  }

  lemma OthersDoNotReport(s: State, e: Event)
    requires Enabled(s, e) && !e.ChildExits? && !e.IdleRuns?
    ensures Step(s, e).sys.reports == s.sys.reports
  {
    match e
    case Finalize => ReleasedReports(s);
    case StdinReady(n) => StdinDoesNotReport(s, n);
    case _ =>
  }

  lemma StdinDoesNotReport(s: State, n: nat)
    requires Enabled(s, StdinReady(n))
    ensures StdinWritten(s, n).sys.reports == s.sys.reports
  {
  }

  lemma FailureStep(s: State, e: Event)
    requires Inv(s) && Enabled(s, e) && !e.ChildExits?
    ensures Step(s, e).sys.reports ==
              s.sys.reports + if e.IdleRuns? && s.job.out.text.Some? then
                                [Report(true, s.sys.out.printed[..s.sys.out.taken], s.sys.err.printed[..s.sys.err.taken])]
                              else []
  {
    if e.IdleRuns? {
      IdleReports(s);
    } else {
      OthersDoNotReport(s, e);
      assert s.sys.reports + [] == s.sys.reports;
    }
  }

  lemma IdlesBeforeFinal(s: State)
    requires Inv(s)
    ensures s.job.idles > 0 ==> !s.job.finalized
  {
  }

  lemma ReleasedReports(s: State)
    ensures Released(s).sys.reports == s.sys.reports
  {
    var t := Terminated(s.(job := s.job.(watch := false)));
    CloseThree(t.sys, s.job.stdinFd, s.job.out.fd, s.job.err.fd);
  }

  // The child is watched by the job, or by itself after it was signalled, or was reaped.
  predicate IsAwaited(s: State, pid: int) {
    if s.job.watch then s.job.pid == pid && s.sys.reapers == {} && s.sys.reaped == {}
    else (s.sys.reapers == {pid} && s.sys.reaped == {}) || (s.sys.reapers == {} && s.sys.reaped == {pid})
  }

  lemma AwaitedStep(s: State, e: Event, pid: int)
    requires Inv(s) && Enabled(s, e) && IsAwaited(s, pid)
    ensures IsAwaited(Step(s, e), pid)
  {
    if e.ChildExits? {
      ExitReaps(s, e.failed, e.outEnds, e.errEnds);
    } else if e.Finalize? {
      FinalizeAwaits(s, pid);
    } else {
      OthersAwait(s, e, pid);
    }
  }

  lemma FinalizeAwaits(s: State, pid: int)
    requires Inv(s) && Enabled(s, Finalize) && IsAwaited(s, pid)
    ensures IsAwaited(Step(s, Finalize), pid)
  {
    ReleasedAwaits(s);
  }

  lemma OthersAwait(s: State, e: Event, pid: int)
    requires Enabled(s, e) && !e.ChildExits? && !e.Finalize? && IsAwaited(s, pid)
    ensures IsAwaited(Step(s, e), pid)
  {
  }

  lemma ExitReaps(s: State, failed: bool, outEnds: bool, errEnds: bool)
    requires PipesOk(s.sys)
    ensures var t := ExitSeen(s, failed, outEnds, errEnds);
            !t.job.watch && t.sys.reapers == s.sys.reapers && t.sys.reaped == s.sys.reaped + {s.job.pid}
  {
    var told := Reported(s, failed, outEnds, errEnds);
    ReleasedAwaits(told.(job := told.job.(pid := 0, watch := false)));
  }

  lemma ReleasedAwaits(s: State)
    ensures var t := Released(s);
            && !t.job.watch && t.sys.reaped == s.sys.reaped
            && t.sys.reapers == s.sys.reapers + if s.job.pid == 0 then {} else {s.job.pid}
  {
    var t := Terminated(s.(job := s.job.(watch := false)));
    CloseThree(t.sys, s.job.stdinFd, s.job.out.fd, s.job.err.fd);
    assert s.sys.reapers + {} == s.sys.reapers;
  }

  /** No child is forgotten: a child that was spawned is watched until its end was seen, by the job or,
      once that is finalized, on its own; and it is reaped once. */
  lemma {:induction false} ChildIsReaped(states: seq<State>, events: seq<Event>, input: Option<string>, how: Spawning, j: nat)
    requires IsRun(states, events, input, how) && j < |states| && how.Spawns?
    ensures IsAwaited(states[j], how.pid)
  {
    if j > 0 {
      ChildIsReaped(states, events, input, how, j - 1);
      InvAlways(states, events, input, how, j - 1);
      AwaitedStep(states[j - 1], events[j - 1], how.pid);
    }
  }

  // How often something was cancelled, and how many idle sources have run, among the first j events.
  function Cancels(events: seq<Event>, j: nat): nat
    requires j <= |events|
  {
    if j == 0 then 0 else Cancels(events, j - 1) + if events[j - 1].Cancelled? then 1 else 0
  }

  function Runs(events: seq<Event>, j: nat): nat
    requires j <= |events|
  {
    if j == 0 then 0 else Runs(events, j - 1) + if events[j - 1].IdleRuns? then 1 else 0
  }

  lemma IdleStep(s: State, e: Event)
    requires Enabled(s, e)
    ensures Step(s, e).job.idles == s.job.idles + (if e.Cancelled? then 1 else 0) - (if e.IdleRuns? then 1 else 0)
    ensures Step(s, e).job.handler == (s.job.handler && !e.ChildExits? && !e.Finalize?)
  {
    if e.ChildExits? {
      ExitKeepsIdles(s, e.failed, e.outEnds, e.errEnds);
    } else if e.Finalize? {
      ReleaseKeepsRest(s);
    }
  }

  /** Each cancellation has one idle source, and so has a job that could not be started. Cancelling is
      listened to until the exit was seen or the job is finalized, unless it had come before. */
  lemma {:induction false} IdlesCount(states: seq<State>, events: seq<Event>, input: Option<string>, how: Spawning, j: nat)
    requires IsRun(states, events, input, how) && j < |states|
    ensures states[j].job.idles + Runs(events, j) == Cancels(events, j) + if how.Spawns? then 0 else 1
    ensures states[j].job.handler <==> !how.AlreadyCancelled? && !Exited(events, j) && !states[j].job.finalized
  {
    if j > 0 {
      IdlesCount(states, events, input, how, j - 1);
      IdleStep(states[j - 1], events[j - 1]);
      ExitedOneMore(events, j - 1);
      FinalizedStep(states[j - 1], events[j - 1]);
    }
  }

  lemma FinalizedStep(s: State, e: Event)
    requires Enabled(s, e)
    ensures Step(s, e).job.finalized <==> s.job.finalized || e.Finalize?
  {
    if e.ChildExits? { ExitIsNotFinal(s, e.failed, e.outEnds, e.errEnds); }
  }

  lemma ExitIsNotFinal(s: State, failed: bool, outEnds: bool, errEnds: bool)
    requires PipesOk(s.sys)
    ensures ExitSeen(s, failed, outEnds, errEnds).job.finalized == s.job.finalized
  {
  }
}
