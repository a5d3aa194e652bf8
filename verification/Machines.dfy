/**
 * The operating system as WorkBoost meets it. Every call lets time pass first: processes end, pids are reused, services
 * change state. Results are chosen freely within what each call promises.
 */
module Machines {
  import opened Types
  import opened SessionModel
  import opened Planner
  import opened Worlds
  import opened Moments
  import Wire

  const ERROR_INVALID_PARAMETER: u32 := 87
  const ERROR_SERVICE_ALREADY_RUNNING: u32 := 1056

  function Priorities(who: Ident): Scope { Scope({who}, {}, {}, {}) }
  function Closes(who: Ident): Scope { Scope({}, {who}, {}, {}) }
  function Stops(name: string): Scope { Scope({}, {}, {name}, {}) }
  function Starts(name: string): Scope { Scope({}, {}, {}, {name}) }

  /** The world after a priority was set; the process may have ended before. */
  function WithPriority(w: World, who: Ident, value: u32, undo: bool): World {
    w.(procs := if Live(w, who) then w.procs[who.pid := w.procs[who.pid].(priority := value)] else w.procs,
       log := w.log + [PrioritySet(who, value, undo)])
  }

  lemma SettingTouches(w: World, who: Ident, value: u32, undo: bool)
    requires Sane(w) && who in w.watch.processes && value != 0
    ensures var v := WithPriority(w, who, value, undo);
            && Touches(w, v, Priorities(who)) && Sane(v)
            && (Live(v, who) ==> v.procs[who.pid].priority == value)
  {
    var v := WithPriority(w, who, value, undo);
    forall pid | pid in v.procs ensures ProcessKept(w, pid, v.procs[pid], Priorities(who)) {
    }
  }

  /**
   * A snapshot lists each pid once; an entry with a start time tells the truth about the process. A priority of zero
   * says that it could not be read.
   */
  predicate Honest(w: World, s: SystemSnapshot) {
    && DistinctPids(s.processes)
    && forall p | p in s.processes && p.startTime != 0 ::
         var who := Ident(p.pid, p.startTime);
         && p.pid != 0 && who in w.seen
         && (p.priority != 0 && Live(w, who) && who in w.watch.processes ==> p.priority == w.procs[p.pid].priority)
  }

  /** Every process whose start time could be read could also be asked for its priority. */
  predicate PrioritiesKnown(s: SystemSnapshot) {
    forall p | p in s.processes && p.startTime != 0 :: p.priority != 0
  }

  predicate Faithful(w: World, s: SystemSnapshot) {
    Honest(w, s) && PrioritiesKnown(s)
  }

  predicate Distinct(windows: seq<nat>) {
    forall i, j | 0 <= i < j < |windows| :: windows[i] != windows[j]
  }

  class Machine {
    /** All worlds so far; a crash keeps a prefix. */
    var trace: Trace
    var clock: nat
    /** What every call so far has answered, where the answer matters. */
    ghost var answers: seq<Answer>

    constructor (w: World)
      requires Sane(w)
      ensures Valid() && trace == [w]
    {
      trace, clock, answers := [w], 0, [];
    }

    function Now(): World
      reads this
    {
      Last(trace)
    }

    ghost function At(): Moment
      reads this
    {
      Moment(trace, answers, clock)
    }

    /** How many calls have reported a failure. */
    function Failures(): nat
      reads this
    {
      Now().failures
    }

    predicate Valid()
      reads this
    {
      Sane(Now())
    }

    /** Whatever the rest of the system does between two steps of WorkBoost. */
    method Interfere()
      requires Valid()
      modifies this
      ensures Valid() && Quiet(old(trace), trace)
      ensures Since(old(At()), At())
      ensures Failures() == old(Failures()) && answers == old(answers)
    {
      var v: World, elapsed: nat := *, *;
      clock := clock + elapsed;
      if Touches(Now(), v, NOTHING) && v.failures == Now().failures {
        QuietStep(trace, v);
        trace := trace + [v];
      } else {
        QuietItself(trace);
      }
    }

    /** A call reports a failure, and nothing else happens. */
    method Fail()
      requires Valid()
      modifies this`trace
      ensures Valid() && Quiet(old(trace), trace)
      ensures Since(old(At()), At())
      ensures trace == old(trace) + [old(Now()).(failures := old(Now()).failures + 1)]
    {
      var v := Now().(failures := Now().failures + 1);
      FailureTouches(Now(), v);
      QuietStep(trace, v);
      trace := trace + [v];
    }

    /** A call gives its answer, and nothing else happens. */
    ghost method Tell(x: Answer)
      requires Valid()
      modifies this`answers
      ensures Valid() && answers == old(answers) + [x]
      ensures Since(old(At()), At()) && Heard(old(At()), At(), x)
    {
      answers := answers + [x];
      HeardNow(old(At()), At(), x);
    }

    method GetLastError() returns (code: u32)
    {
      var reason: u32 := *;
      return reason;
    }

    // ----- Processes -----

    /** A handle stands for the process it was opened on, whatever becomes of the pid. */
    method OpenProcess(pid: u32) returns (handle: Option<Ident>, code: u32)
      requires Valid()
      modifies this
      ensures Valid() && Quiet(old(trace), trace)
      ensures Since(old(At()), At())
      ensures handle.Some? ==> handle.value.pid == pid && Live(Now(), handle.value)
      ensures handle.None? && code == ERROR_INVALID_PARAMETER ==> pid !in Now().procs
      ensures Failures() >= old(Failures())
      ensures handle.None? && code != ERROR_INVALID_PARAMETER ==> Failures() > old(Failures())
    {
      Interfere();
      var granted: bool, reason: u32 := *, *;
      if pid !in Now().procs && reason == ERROR_INVALID_PARAMETER {
        return None, reason;
      }
      if pid in Now().procs && (granted || reason == ERROR_INVALID_PARAMETER) {
        return Some(Ident(pid, Now().procs[pid].start)), 0;
      }
      Fail();
      return None, reason;
    }

    method GetProcessTimes(handle: Ident) returns (start: Option<u64>)
      requires Valid()
      modifies this
      ensures Valid() && Quiet(old(trace), trace)
      ensures Since(old(At()), At())
      ensures start.Some? ==> start.value == handle.start
      ensures Failures() == old(Failures()) + if start.Some? then 0 else 1
    {
      Interfere();
      var ok: bool := *;
      if ok {
        return Some(handle.start);
      }
      Fail();
      return None;
    }

    /** Zero reports an error. */
    method GetPriorityClass(handle: Ident) returns (value: u32)
      requires Valid()
      modifies this
      ensures Valid() && Quiet(old(trace), trace)
      ensures Since(old(At()), At())
      ensures value != 0 && Live(Now(), handle) ==> value == Now().procs[handle.pid].priority
      ensures value == 0 ==> Failures() > old(Failures())
    {
      Interfere();
      var ok: bool, stale: u32 := *, *;
      if ok {
        value := if Live(Now(), handle) then Now().procs[handle.pid].priority else stale;
      } else {
        value := 0;
      }
      if value == 0 {
        Fail();
      }
    }

    /** Zero is no priority class. `undo` only tells the two uses apart in the log. */
    method SetPriorityClass(handle: Ident, value: u32, undo: bool) returns (ok: bool)
      requires Valid() && handle in Now().watch.processes
      modifies this
      ensures Valid() && (ok ==> value != 0)
      ensures Since(old(At()), At())
      ensures !ok ==> Quiet(old(trace), trace)
      ensures Extends(old(trace), trace, Priorities(handle))
      ensures ok ==> Now().log == old(Now().log) + [PrioritySet(handle, value, undo)]
      ensures ok && Live(Now(), handle) ==> Now().procs[handle.pid].priority == value
      ensures Failures() == old(Failures()) + if ok then 0 else 1
    {
      hide Extends, Touches, Quiet;
      ghost var before := trace;
      Interfere();
      ghost var mid := trace;
      QuietMeans(before, mid);
      ok := *;
      ok := ok && value != 0;
      if ok {
        var v := WithPriority(Now(), handle, value, undo);
        SettingTouches(Now(), handle, value, undo);
        StepExtends(trace, v, Priorities(handle));
        trace := trace + [v];
        QuietThenExtends(before, mid, trace, Priorities(handle));
      } else {
        Fail();
        QuietOn(before, mid, trace);
        QuietExtends(before, trace, Priorities(handle));
      }
    }

    /** Does the window in front belong to this process? */
    method OwnsForegroundWindow(pid: u32) returns (owns: bool)
      requires Valid()
      modifies this
      ensures Valid() && Quiet(old(trace), trace)
      ensures Since(old(At()), At()) && Heard(old(At()), At(), Foreground(pid, owns))
    {
      Interfere();
      owns := *;
      Tell(Foreground(pid, owns));
    }

    /** The visible, unowned windows of a process, each listed once. */
    method EnumWindows(pid: u32) returns (windows: Option<seq<nat>>)
      requires Valid()
      modifies this
      ensures Valid() && Quiet(old(trace), trace)
      ensures Since(old(At()), At())
      ensures windows.Some? ==> Distinct(windows.value) && Heard(old(At()), At(), Listed(pid, windows.value))
      ensures Failures() == old(Failures()) + if windows.Some? then 0 else 1
    {
      Interfere();
      var found: seq<nat>, ok: bool := *, *;
      if ok && Distinct(found) {
        Tell(Listed(pid, found));
        return Some(found);
      }
      Fail();
      return None;
    }

    method StillShown(window: nat, pid: u32) returns (shown: bool)
      requires Valid()
      modifies this
      ensures Valid() && Quiet(old(trace), trace)
      ensures Since(old(At()), At()) && Heard(old(At()), At(), Shown(window, pid, shown))
    {
      Interfere();
      shown := *;
      Tell(Shown(window, pid, shown));
    }

    /** Sends WM_CLOSE, as message `nth` of a request; a failure does not tell whether the window got it. */
    method SendClose(handle: Ident, window: nat, nth: nat) returns (delivered: bool, code: u32)
      requires Valid()
      modifies this
      ensures Valid()
      ensures Since(old(At()), At())
      ensures Extends(old(trace), trace, Closes(handle))
      ensures Now().log == old(Now().log) + [CloseSent(handle, window, nth, delivered)]
    {
      ghost var before := trace;
      Interfere();
      ghost var mid := trace;
      QuietMeans(before, mid);
      var w := Now();
      delivered := *;
      var v := w.(log := w.log + [CloseSent(handle, window, nth, delivered)]);
      TouchesItself(w, Closes(handle));
      StepExtends(trace, v, Closes(handle));
      trace := trace + [v];
      ExtendsOn(before, mid, trace, NOTHING, Closes(handle), Closes(handle));
      var reason: u32 := *;
      code := reason;
    }

    method WaitForExit(handle: Ident) returns (exited: bool)
      requires Valid()
      modifies this
      ensures Valid() && Quiet(old(trace), trace)
      ensures Since(old(At()), At())
      ensures exited ==> !Live(Now(), handle)
    {
      Interfere();
      exited := *;
      exited := exited && !Live(Now(), handle);
    }

    // ----- Time -----

    method GetTickCount() returns (now: nat)
      requires Valid()
      modifies this
      ensures Valid() && Quiet(old(trace), trace) && old(clock) <= clock == now
      ensures Since(old(At()), At())
    {
      Interfere();
      now := clock;
    }

    method Sleep(milliseconds: nat)
      requires Valid()
      modifies this
      ensures Valid() && Quiet(old(trace), trace) && clock >= old(clock) + milliseconds
      ensures Since(old(At()), At())
    {
      Interfere();
      clock := clock + milliseconds;
    }

    // ----- Services -----

    /** The manager knows no service whose name is too long, or has a slash, a backslash or a control byte in it. */
    method OpenService(name: string) returns (ok: bool)
      requires Valid()
      modifies this
      ensures Valid() && Quiet(old(trace), trace)
      ensures Since(old(At()), At())
      ensures ok ==> ValidServiceName(name)
      ensures Failures() == old(Failures()) + if ok then 0 else 1
    {
      Interfere();
      ok := *;
      ok := ok && ValidServiceName(name);
      if !ok {
        Fail();
      }
    }

    method QueryServiceStatus(name: string) returns (status: Option<ServiceStatus>)
      requires Valid()
      modifies this
      ensures Valid() && Quiet(old(trace), trace)
      ensures Since(old(At()), At())
      ensures status.Some? ==>
                && name in Now().services && status.value.state == Now().services[name]
                && Heard(old(At()), At(), Status(name, status.value))
      ensures Failures() == old(Failures()) + if status.Some? then 0 else 1
    {
      Interfere();
      var ok: bool, pid: u32, acceptsStop: bool := *, *, *;
      if ok && name in Now().services {
        status := Some(ServiceStatus(Now().services[name], pid, acceptsStop));
        Tell(Status(name, status.value));
        return;
      }
      Fail();
      return None;
    }

    /** The token made from the configuration of a service: sixteen lower-case hexadecimal digits. */
    method QueryServiceIdentity(name: string) returns (token: Option<string>)
      requires Valid()
      modifies this
      ensures Valid() && Quiet(old(trace), trace)
      ensures Since(old(At()), At())
      ensures token.Some? ==>
                ValidServiceIdentity(token.value) && Heard(old(At()), At(), Identity(name, token.value))
      ensures Failures() == old(Failures()) + if token.Some? then 0 else 1
    {
      Interfere();
      var value: string := *;
      if ValidServiceIdentity(value) {
        Tell(Identity(name, value));
        return Some(value);
      }
      Fail();
      return None;
    }

    /** The display name; a failure to read it is none of the caller's. */
    method QueryDisplayName(name: string) returns (displayName: string)
      requires Valid()
      modifies this
      ensures Valid() && Quiet(old(trace), trace)
      ensures Since(old(At()), At()) && Heard(old(At()), At(), Titled(name, displayName))
      ensures Failures() == old(Failures())
    {
      Interfere();
      displayName := *;
      Tell(Titled(name, displayName));
    }

    method HasActiveDependents(name: string) returns (has: Option<bool>)
      requires Valid()
      modifies this
      ensures Valid() && Quiet(old(trace), trace)
      ensures Since(old(At()), At())
      ensures has.Some? ==> Heard(old(At()), At(), Dependents(name, has.value))
      ensures Failures() == old(Failures()) + if has.Some? then 0 else 1
    {
      Interfere();
      var known: bool, answer: bool := *, *;
      if known {
        Tell(Dependents(name, answer));
        return Some(answer);
      }
      Fail();
      return None;
    }

    /** An accepted stop leaves Running at once; a refused one changes nothing. */
    method ControlStop(name: string) returns (ok: bool)
      requires Valid()
      modifies this
      ensures Valid()
      ensures Since(old(At()), At())
      ensures !ok ==> Quiet(old(trace), trace)
      ensures ok ==> Extends(old(trace), trace, Stops(name))
      ensures ok ==> Now().log == old(Now().log) + [StopAccepted(name)] && !IsRunning(Now(), name)
      ensures Failures() == old(Failures()) + if ok then 0 else 1
    {
      ghost var before := trace;
      Interfere();
      ghost var mid := trace;
      QuietMeans(before, mid);
      var state: ServiceState := *;
      ok := *;
      ok := ok && state != Running;
      if ok {
        var w := Now();
        var v := w.(services := w.services[name := state], log := w.log + [StopAccepted(name)]);
        StepExtends(trace, v, Stops(name));
        trace := trace + [v];
        ExtendsOn(before, mid, trace, NOTHING, Stops(name), Stops(name));
      } else {
        Fail();
      }
    }

    /** A helper stops a service after all, although its client has given up waiting for it. */
    method LateStop(name: string)
      requires Valid()
      modifies this
      ensures Valid() && Extends(old(trace), trace, Stops(name))
      ensures Now().log == old(Now().log) + [StopAccepted(name)] && Now().file == old(Now().file)
    {
      var state: ServiceState := *;
      var w := Now();
      var v := w.(
          services := w.services[name := if state == Running then Stopped else state],
          log := w.log + [StopAccepted(name)]);
      StepExtends(trace, v, Stops(name));
      trace := trace + [v];
    }

    /** Starts a stopped service; fails otherwise. */
    method StartService(name: string) returns (ok: bool, code: u32)
      requires Valid()
      modifies this
      ensures Valid()
      ensures Since(old(At()), At())
      ensures !ok ==> Quiet(old(trace), trace)
      ensures ok ==> Extends(old(trace), trace, Starts(name))
      ensures ok ==> Now().log == old(Now().log) + [StartAccepted(name)]
      ensures Failures() == old(Failures()) + if ok then 0 else 1
    {
      ghost var before := trace;
      Interfere();
      ghost var mid := trace;
      QuietMeans(before, mid);
      var state: ServiceState := *;
      ok := *;
      code := *;
      var w := Now();
      ok := ok && name in w.services && w.services[name] == Stopped && state in {StartPending, Running};
      if ok {
        var v := w.(services := w.services[name := state], log := w.log + [StartAccepted(name)]);
        StepExtends(trace, v, Starts(name));
        trace := trace + [v];
        ExtendsOn(before, mid, trace, NOTHING, Starts(name), Starts(name));
      } else {
        Fail();
      }
    }

    // ----- The helper's pipe and everything else that can only fail -----

    /** A call with no effect on the model, which may fail. */
    method Try() returns (ok: bool, code: u32)
      requires Valid()
      modifies this
      ensures Valid() && Quiet(old(trace), trace)
      ensures Since(old(At()), At())
      ensures Failures() == old(Failures()) + if ok then 0 else 1
    {
      Interfere();
      ok, code := *, *;
      if !ok {
        Fail();
      }
    }

    /** The configuration beside the helper program. */
    method LoadTrusted() returns (config: Option<Config>)
      requires Valid()
      modifies this
      ensures Valid() && Quiet(old(trace), trace)
      ensures Since(old(At()), At())
      ensures config.Some? ==> Heard(old(At()), At(), Trusted(config.value))
      ensures Failures() == old(Failures()) + if config.Some? then 0 else 1
    {
      Interfere();
      var value: Config, ok: bool := *, *;
      if ok {
        Tell(Trusted(value));
        return Some(value);
      }
      Fail();
      return None;
    }

    /** A nonce from the random number generator, which may draw any. */
    method DrawNonce() returns (nonce: Wire.Nonce)
      requires Valid()
      modifies this
      ensures Valid() && Quiet(old(trace), trace)
      ensures Since(old(At()), At()) && Heard(old(At()), At(), Drawn(nonce))
      ensures Failures() == old(Failures())
    {
      Interfere();
      nonce := *;
      Tell(Drawn(nonce));
    }

    // ----- Snapshots -----

    method Sample() returns (snapshot: Option<SystemSnapshot>)
      requires Valid()
      modifies this
      ensures Valid() && Quiet(old(trace), trace)
      ensures Since(old(At()), At())
      ensures snapshot.Some? ==> Faithful(Now(), snapshot.value) && Heard(old(At()), At(), Sampled(snapshot.value))
      ensures Failures() == old(Failures()) + if snapshot.Some? then 0 else 1
    {
      Interfere();
      var s: SystemSnapshot, ok: bool := *, *;
      if ok && Faithful(Now(), s) {
        Tell(Sampled(s));
        return Some(s);
      }
      Fail();
      return None;
    }

    // ----- Files -----

    /** An error counts as present. */
    method HasActiveSession() returns (present: bool)
      requires Valid()
      modifies this
      ensures Valid() && Quiet(old(trace), trace)
      ensures Since(old(At()), At())
      ensures !present ==> Now().file.None?
      ensures Failures() == old(Failures()) + if present && Now().file.None? then 1 else 0
    {
      Interfere();
      present := *;
      present := present || Now().file.Some?;
      if present && Now().file.None? {
        Fail();
      }
    }

    method LoadActive() returns (session: Option<Session>)
      requires Valid()
      modifies this
      ensures Valid() && Quiet(old(trace), trace)
      ensures Since(old(At()), At())
      ensures session.Some? ==> Now().file == session
      ensures Failures() == old(Failures()) + if session == Now().file then 0 else 1
      ensures session.None? && Now().file.Some? ==> Heard(old(At()), At(), Unread)
    {
      Interfere();
      var readable: bool := *;
      session := if readable then Now().file else None;
      if session != Now().file {
        Fail();
        Tell(Unread);
      }
    }

    /** The write is atomic: it replaces the whole file or leaves the old one. */
    method Save(session: Session) returns (ok: bool)
      requires Valid()
      modifies this
      ensures Valid()
      ensures Since(old(At()), At())
      ensures !ok ==> Quiet(old(trace), trace)
      ensures ok ==> Saved(old(trace), trace, session)
      ensures !ok ==> Heard(old(At()), At(), Unsaved(session))
      ensures Failures() == old(Failures()) + if ok then 0 else 1
    {
      ghost var before := trace;
      Interfere();
      ok := *;
      if ok {
        ghost var mid := trace;
        trace := trace + [Now().(file := Some(session))];
        assert SavedVia(before, mid, trace, session);
      } else {
        Fail();
        Tell(Unsaved(session));
      }
    }

    method WriteReport(id: string, report: Report) returns (ok: bool)
      requires Valid()
      modifies this
      ensures Valid()
      ensures Since(old(At()), At())
      ensures !ok ==> Quiet(old(trace), trace)
      ensures ok ==> Reported(old(trace), trace, id, report)
      ensures Failures() == old(Failures()) + if ok then 0 else 1
    {
      ghost var before := trace;
      Interfere();
      ok := *;
      if ok {
        ghost var mid := trace;
        trace := trace + [Now().(reports := Now().reports[id := report])];
        assert ReportedVia(before, mid, trace, id, report);
      } else {
        Fail();
      }
    }

    method RemoveActive() returns (ok: bool)
      requires Valid()
      modifies this
      ensures Valid()
      ensures Since(old(At()), At())
      ensures !ok ==> Quiet(old(trace), trace)
      ensures ok ==> Removed(old(trace), trace)
      ensures Failures() == old(Failures()) + if ok then 0 else 1
    {
      ghost var before := trace;
      Interfere();
      ok := *;
      if ok {
        ghost var mid := trace;
        trace := trace + [Now().(file := None)];
        assert RemovedVia(before, mid, trace);
      } else {
        Fail();
      }
    }

    // ----- Bookkeeping of the model -----

    /** From here on, other programs leave these targets alone, and the log starts anew. */
    method Begin(watch: Watch)
      requires Valid() && watch.processes <= Now().seen
      modifies this`trace
      ensures Valid() && trace == old(trace) + [old(Now()).(watch := watch, log := [])]
    {
      trace := trace + [Now().(watch := watch, log := [])];
    }

    /** Between two runs without a session, the targets are anybody's again. */
    method Release()
      requires Valid()
      modifies this
      ensures Valid() && trace == old(trace) + [old(Now()).(watch := Watch({}, {}))]
    {
      trace := trace + [Now().(watch := Watch({}, {}))];
    }

    method Crash(moment: nat)
      requires Valid() && 0 < moment <= |trace| && Sane(trace[moment - 1])
      modifies this
      ensures Valid() && trace == old(trace)[..moment]
    {
      trace := trace[..moment];
    }
  }

  lemma FailureTouches(w: World, v: World)
    requires Sane(w) && v == w.(failures := w.failures + 1)
    ensures Touches(w, v, NOTHING)
  {
  }

  // ----- Steps that change a file -----

  ghost predicate SavedVia(a: Trace, mid: Trace, b: Trace, session: Session) {
    Quiet(a, mid) && b == mid + [Last(mid).(file := Some(session))]
  }

  ghost predicate Saved(a: Trace, b: Trace, session: Session) {
    exists mid :: SavedVia(a, mid, b, session)
  }

  ghost predicate ReportedVia(a: Trace, mid: Trace, b: Trace, id: string, report: Report) {
    Quiet(a, mid) && b == mid + [Last(mid).(reports := Last(mid).reports[id := report])]
  }

  ghost predicate Reported(a: Trace, b: Trace, id: string, report: Report) {
    exists mid :: ReportedVia(a, mid, b, id, report)
  }

  ghost predicate RemovedVia(a: Trace, mid: Trace, b: Trace) {
    Quiet(a, mid) && b == mid + [Last(mid).(file := None)]
  }

  ghost predicate Removed(a: Trace, b: Trace) {
    exists mid :: RemovedVia(a, mid, b)
  }
}
