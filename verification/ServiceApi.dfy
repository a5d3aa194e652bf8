/** Stopping a service for a session and starting it again, against a service manager that may do anything meanwhile. */
module ServiceApi {
  import opened Types
  import opened SessionModel
  import opened Worlds
  import opened Moments
  import opened Refusals
  import opened Machines

  const ERROR_REVISION_MISMATCH: u32 := 1306
  const ERROR_SERVICE_NOT_ACTIVE: u32 := 1062
  const ERROR_SERVICE_CANNOT_ACCEPT_CTRL: u32 := 1061
  const ERROR_DEPENDENT_SERVICES_RUNNING: u32 := 1051
  const ERROR_WAIT_TIMEOUT: u32 := 1460
  const ERROR_INVALID_NAME: u32 := 123

  datatype ServiceControlResult = ServiceControlResult(
    success: bool, changed: bool, outcomeUncertain: bool, stateBefore: ServiceState, stateAfter: ServiceState,
    errorCode: u32)

  const NO_RESULT :=
    ServiceControlResult(false, false, false, ServiceState.Unknown, ServiceState.Unknown, 0)

  /** A service found Running is Running when the answer is used, if it is one of the session's. */
  method Query(m: Machine, name: string) returns (service: Option<ServiceSnapshot>, errorCode: u32)
    requires m.Valid()
    modifies m
    ensures m.Valid() && Quiet(old(m.trace), m.trace) && Since(old(m.At()), m.At())
    ensures service.Some? ==>
              && service.value.name == name && ValidServiceName(name)
              && service.value.identityVerified && ValidServiceIdentity(service.value.identityToken)
              && (service.value.state == Running && name in m.Now().watch.services ==> IsRunning(m.Now(), name))
    ensures service.Some? ==> Described(old(m.At()), m.At(), service.value)
    ensures service.None? && name != "" ==> Troubled(old(m.At()), m.At())
  {
    hide Extends, Touches, Sane, Heard, Since, Quiet, Troubled, ValidServiceName, ValidServiceIdentity;
    ghost var before := m.At();
    SinceItself(before);
    errorCode := m.GetLastError();
    if name == "" {
      QuietItself(m.trace);
      return None, ERROR_INVALID_NAME;
    }
    var known := m.OpenService(name);
    ghost var found := m.At();
    if !known {
      FailedSince(before, before, found);
      return None, errorCode;
    }
    var status := m.QueryServiceStatus(name);
    ghost var asked := m.At();
    QuietOn(before.trace, found.trace, asked.trace);
    SinceOn(before, found, asked);
    if status.None? {
      FailedSince(before, found, asked);
      return None, errorCode;
    }
    var token := m.QueryServiceIdentity(name);
    ghost var told := m.At();
    QuietOn(before.trace, asked.trace, told.trace);
    SinceOn(before, asked, told);
    if token.None? {
      FailedSince(before, asked, told);
      return None, errorCode;
    }
    var displayName := m.QueryDisplayName(name);
    QuietOn(before.trace, told.trace, m.trace);
    QuietOn(asked.trace, told.trace, m.trace);
    QuietMeans(asked.trace, m.trace);
    if status.value.state == Running && name in m.Now().watch.services {
      RunningStays(Last(asked.trace), m.Now(), NOTHING, name);
    }
    SinceOn(before, told, m.At());
    SinceOn(asked, told, m.At());
    SinceItself(m.At());
    Wider(before, found, asked, m.At());
    Wider(before, asked, told, m.At());
    Wider(before, told, m.At(), m.At());
    return Some(ServiceSnapshot(name, displayName, status.value.state, status.value.pid, status.value.acceptsStop,
                                true, token.value)), 0;
  }

  lemma FailedSince(p: Moment, q: Moment, r: Moment)
    requires Since(p, q) && Since(q, r) && Last(r.trace).failures > Last(q.trace).failures
    ensures Troubled(p, r)
  {
  }

  /** Polls until the state is seen or the deadline has passed. */
  method WaitForServiceStateUntil(
      m: Machine, name: string, desired: ServiceState, deadline: nat, last: ServiceState)
    returns (reached: bool, state: ServiceState, errorCode: u32)
    requires m.Valid()
    modifies m
    ensures m.Valid() && Quiet(old(m.trace), m.trace) && Since(old(m.At()), m.At())
    ensures reached ==> state == desired && name in m.Now().services && m.Now().services[name] == desired
    ensures reached ==> Seen(old(m.At()), m.At(), name, desired)
    ensures !reached ==> Troubled(old(m.At()), m.At()) || m.clock >= deadline
  {
    QuietItself(m.trace);
    SinceItself(m.At());
    hide Extends, Touches, Sane, Heard, Seen, Quiet, Since, Troubled;
    ghost var before := m.At();
    reached, state := false, last;
    errorCode := m.GetLastError();
    while true
      invariant m.Valid() && Quiet(old(m.trace), m.trace) && Since(before, m.At())
      decreases deadline - m.clock
    {
      ghost var entered := m.At();
      var status := m.QueryServiceStatus(name);
      SinceItself(m.At());
      Wider(before, entered, m.At(), m.At());
      QuietOn(before.trace, entered.trace, m.trace);
      if status.None? {
        return;
      }
      state := status.value.state;
      if state == desired {
        SeenBy(before, m.At(), name, status.value);
        return true, state, 0;
      }
      ghost var asked := m.At();
      var now := m.GetTickCount();
      SinceOn(before, asked, m.At());
      QuietOn(before.trace, asked.trace, m.trace);
      if now >= deadline {
        return false, state, ERROR_WAIT_TIMEOUT;
      }
      var remaining := deadline - now;
      ghost var timed := m.At();
      m.Sleep(if remaining < 100 then remaining else 100);
      SinceOn(before, timed, m.At());
      QuietOn(before.trace, timed.trace, m.trace);
    }
  }

  /** Status and identity of an opened service; refused when it is not the one that was planned for. */
  method QueryExpected(m: Machine, name: string, expectedToken: string, ghost stop: bool, ghost timeoutMs: nat)
    returns (status: Option<ServiceStatus>, errorCode: u32)
    requires m.Valid()
    modifies m
    ensures m.Valid() && Quiet(old(m.trace), m.trace) && Since(old(m.At()), m.At())
    ensures status.Some? && status.value.state == Running && name in m.Now().watch.services ==> IsRunning(m.Now(), name)
    ensures status.Some? ==>
              && Heard(old(m.At()), m.At(), Status(name, status.value)) && expectedToken != ""
              && Heard(old(m.At()), m.At(), Identity(name, expectedToken))
    ensures status.None? ==> Hindered(stop, name, expectedToken, timeoutMs, old(m.At()), m.At())
  {
    hide Extends, Touches, Sane, Heard;
    ghost var before := m.At();
    errorCode := m.GetLastError();
    var found := m.QueryServiceStatus(name);
    if found.None? {
      return None, errorCode;
    }
    ghost var asked := m.At();
    var token := m.QueryServiceIdentity(name);
    Wider(before, before, asked, m.At());
    Wider(before, asked, m.At(), m.At());
    QuietOn(before.trace, asked.trace, m.trace);
    if token.None? {
      return None, errorCode;
    }
    if expectedToken == "" || token.value != expectedToken {
      HinderedBy(OtherService(token.value), stop, name, expectedToken, timeoutMs, before, m.At());
      return None, ERROR_REVISION_MISMATCH;
    }
    QuietMeans(asked.trace, m.trace);
    if found.value.state == Running && name in m.Now().watch.services {
      RunningStays(Last(asked.trace), m.Now(), NOTHING, name);
    }
    return found, 0;
  }

  /** Why a service that had the process `pid` is not stopped: its process may be another one by now. */
  ghost predicate StopHindered(name: string, token: string, pid: u32, timeoutMs: nat, p: Moment, q: Moment) {
    || Hindered(true, name, token, timeoutMs, p, q) || pid == 0
    || exists status :: Heard(p, q, Status(name, status)) && status.pid != pid
  }

  lemma StopHinderedWider(
      name: string, token: string, pid: u32, timeoutMs: nat, p: Moment, q: Moment, r: Moment, s: Moment)
    requires Since(p, q) && Since(q, r) && Since(r, s) && StopHindered(name, token, pid, timeoutMs, q, r)
    ensures StopHindered(name, token, pid, timeoutMs, p, s)
  {
    hide Heard, Since, Hindered;
    if Hindered(true, name, token, timeoutMs, q, r) {
      HinderedWider(true, name, token, timeoutMs, p, q, r, s);
    }
    Wider(p, q, r, s);
  }

  /** The expected service was found ready to be stopped, asked about its dependents, and found ready once more. */
  ghost predicate ReadyToStop(name: string, token: string, pid: u32, p: Moment, mid: Moment, q: Moment) {
    && Since(p, mid) && Since(mid, q) && token != "" && pid != 0
    && Heard(p, mid, Identity(name, token)) && Heard(p, mid, Status(name, ServiceStatus(Running, pid, true)))
    && Heard(p, mid, Dependents(name, false)) && Heard(mid, q, Status(name, ServiceStatus(Running, pid, true)))
  }

  /** All the checks that come before the stop control is sent. */
  method MayStop(m: Machine, name: string, expectedToken: string, expectedPid: u32, ghost timeoutMs: nat)
    returns (may: bool, result: ServiceControlResult, ghost mid: Moment)
    requires m.Valid()
    modifies m
    ensures m.Valid() && Quiet(old(m.trace), m.trace) && Since(old(m.At()), m.At())
    ensures !result.success && !result.outcomeUncertain
    ensures may ==> result.stateBefore == Running
    ensures may ==> ReadyToStop(name, expectedToken, expectedPid, old(m.At()), mid, m.At())
    ensures !may ==> StopHindered(name, expectedToken, expectedPid, timeoutMs, old(m.At()), m.At())
  {
    may, result, mid := false, NO_RESULT, m.At();
    ghost var before := m.At();
    if name == "" {
      QuietItself(m.trace);
      HinderedBy(Nameless, true, name, expectedToken, timeoutMs, before, before);
      return false, result.(errorCode := ERROR_INVALID_NAME), mid;
    }
    hide Extends, Touches, Sane, Heard, Quiet, Hindered, Refuses;
    var known := m.OpenService(name);
    ghost var found := m.At();
    var code := m.GetLastError();
    if !known {
      TroubleHinders(true, name, expectedToken, timeoutMs, before, found);
      return false, result.(errorCode := code), mid;
    }
    var status, expectedCode := QueryExpected(m, name, expectedToken, true, timeoutMs);
    ghost var asked := m.At();
    QuietOn(before.trace, found.trace, asked.trace);
    Wider(before, found, asked, asked);
    if status.None? {
      HinderedWider(true, name, expectedToken, timeoutMs, before, found, asked, asked);
      return false, result.(errorCode := expectedCode), mid;
    }
    result := result.(stateBefore := status.value.state, stateAfter := status.value.state);
    if expectedPid == 0 || status.value.pid != expectedPid {
      return false, result.(errorCode := ERROR_REVISION_MISMATCH), mid;
    }
    if status.value.state != Running {
      UnfitHinders(name, expectedToken, timeoutMs, status.value, before, asked);
      return false, result.(errorCode := ERROR_SERVICE_NOT_ACTIVE), mid;
    }
    if !status.value.acceptsStop {
      UnfitHinders(name, expectedToken, timeoutMs, status.value, before, asked);
      return false, result.(errorCode := ERROR_SERVICE_CANNOT_ACCEPT_CTRL), mid;
    }
    ghost var fit := ServiceStatus(Running, expectedPid, true);
    assert status.value == fit;
    var dependents := m.HasActiveDependents(name);
    mid := m.At();
    QuietOn(before.trace, asked.trace, mid.trace);
    Wider(before, before, asked, mid);
    Wider(before, asked, mid, mid);
    if dependents.None? {
      TroubleHinders(true, name, expectedToken, timeoutMs, before, mid);
      return false, result.(errorCode := code), mid;
    }
    if dependents.value {
      NeededHinders(name, expectedToken, timeoutMs, before, mid);
      return false, result.(errorCode := ERROR_DEPENDENT_SERVICES_RUNNING), mid;
    }
    var final := m.QueryServiceStatus(name);
    QuietOn(before.trace, mid.trace, m.trace);
    Wider(before, mid, m.At(), m.At());
    if final.None? {
      TroubleHinders(true, name, expectedToken, timeoutMs, before, m.At());
      return false, result.(errorCode := code), mid;
    }
    if final.value.state != Running || final.value.pid != expectedPid || !final.value.acceptsStop {
      if final.value.pid == expectedPid {
        UnfitHinders(name, expectedToken, timeoutMs, final.value, before, m.At());
      }
      return false, result.(stateAfter := final.value.state, errorCode := ERROR_REVISION_MISMATCH), mid;
    }
    assert final.value == fit;
    may := true;
  }

  lemma UnfitHinders(name: string, token: string, timeoutMs: nat, status: ServiceStatus, p: Moment, q: Moment)
    requires Heard(p, q, Status(name, status)) && (status.state != Running || !status.acceptsStop || status.pid == 0)
    ensures Hindered(true, name, token, timeoutMs, p, q)
  {
    HinderedBy(WrongState(status), true, name, token, timeoutMs, p, q);
  }

  lemma NeededHinders(name: string, token: string, timeoutMs: nat, p: Moment, q: Moment)
    requires Heard(p, q, Dependents(name, true))
    ensures Hindered(true, name, token, timeoutMs, p, q)
  {
    HinderedBy(StillNeeded, true, name, token, timeoutMs, p, q);
  }

  /**
   * A stop that neither succeeded nor is uncertain was never accepted; one that did not succeed had a reason. Nothing
   * is stopped but the service of that identity and that process, found running, willing and unneeded, and then found
   * so once more.
   */
  method StopTemporary(m: Machine, name: string, expectedToken: string, expectedPid: u32, timeoutMs: u32)
    returns (result: ServiceControlResult, ghost mid: Moment)
    requires m.Valid()
    modifies m
    ensures m.Valid() && Since(old(m.At()), m.At())
    ensures !result.success && !result.outcomeUncertain ==> Quiet(old(m.trace), m.trace)
    ensures Extends(old(m.trace), m.trace, Stops(name))
    ensures m.Now().log == old(m.Now().log)
            || m.Now().log == old(m.Now().log) + [StopAccepted(name)]
    ensures result.success ==> result.stateBefore == Running && result.stateAfter == Stopped
    ensures result.success || result.outcomeUncertain ==> m.Now().log == old(m.Now().log) + [StopAccepted(name)]
    ensures m.Now().log != old(m.Now().log) ==>
              ReadyToStop(name, expectedToken, expectedPid, old(m.At()), mid, m.At())
    ensures !result.success ==> StopHindered(name, expectedToken, expectedPid, timeoutMs, old(m.At()), m.At())
  {
    ghost var before := m.At();
    ExtendsItself(before.trace, Stops(name));
    hide Extends, Touches, Sane, Quiet, Heard, Hindered, StopHindered, ReadyToStop;
    var may: bool;
    may, result, mid := MayStop(m, name, expectedToken, expectedPid, timeoutMs);
    QuietMeans(before.trace, m.trace);
    QuietExtends(before.trace, m.trace, Stops(name));
    if !may {
      return;
    }
    ghost var checked := m.At();
    var accepted := m.ControlStop(name);
    ghost var stopped := m.At();
    SinceOn(before, checked, stopped);
    if !accepted {
      QuietOn(before.trace, checked.trace, stopped.trace);
      QuietMeans(checked.trace, stopped.trace);
      QuietExtends(before.trace, stopped.trace, Stops(name));
      var code := m.GetLastError();
      TroubleStops(name, expectedToken, expectedPid, timeoutMs, before, checked, stopped);
      return result.(errorCode := code), mid;
    }
    QuietThenExtends(before.trace, checked.trace, stopped.trace, Stops(name));
    var start := m.GetTickCount();
    ghost var waiting := m.At();
    var reached, state, waitCode :=
      WaitForServiceStateUntil(m, name, Stopped, start + timeoutMs, result.stateAfter);
    QuietOn(stopped.trace, waiting.trace, m.trace);
    Wider(stopped, waiting, m.At(), m.At());
    StoppedThenQuiet(before, checked, stopped, m.At(), name, expectedToken, expectedPid, mid);
    result := result.(changed := true, stateAfter := state, errorCode := waitCode);
    result := if reached then result.(success := true) else result.(outcomeUncertain := true);
    if !reached {
      LateStops(name, expectedToken, expectedPid, timeoutMs, before, mid, m.At());
    }
  }

  lemma TroubleStops(name: string, token: string, pid: u32, timeoutMs: nat, p: Moment, q: Moment, r: Moment)
    requires Since(p, q) && Since(q, r) && Troubled(q, r)
    ensures StopHindered(name, token, pid, timeoutMs, p, r)
  {
    Wider(p, q, r, r);
  }

  /** An accepted stop that was not seen to have its effect. */
  lemma LateStops(name: string, token: string, pid: u32, timeoutMs: nat, p: Moment, mid: Moment, q: Moment)
    requires ReadyToStop(name, token, pid, p, mid, q) && (Troubled(p, q) || q.clock >= p.clock + timeoutMs)
    ensures StopHindered(name, token, pid, timeoutMs, p, q)
  {
    hide Heard;
    Wider(p, p, mid, q);
    if q.clock >= p.clock + timeoutMs {
      HinderedBy(TooSlow(ServiceStatus(Running, pid, true)), true, name, token, timeoutMs, p, q);
    }
  }

  lemma StoppedThenQuiet(
      p: Moment, q: Moment, r: Moment, s: Moment, name: string, token: string, pid: u32, mid: Moment)
    requires Extends(p.trace, r.trace, Stops(name)) && Quiet(r.trace, s.trace)
    requires ReadyToStop(name, token, pid, p, mid, q) && Since(q, r) && Since(r, s)
    ensures Extends(p.trace, s.trace, Stops(name)) && Last(s.trace).log == Last(r.trace).log
    ensures ReadyToStop(name, token, pid, p, mid, s) && Since(p, s)
    ensures Troubled(r, s) ==> Troubled(p, s)
  {
    QuietMeans(r.trace, s.trace);
    hide Heard, Extends, Touches;
    Wider(mid, mid, q, s);
  }

  // ----- Starting again -----

  /** The expected service was found at rest, or about to be. */
  ghost predicate ReadyToStart(name: string, token: string, p: Moment, q: Moment) {
    && token != "" && Heard(p, q, Identity(name, token))
    && (Seen(p, q, name, Stopped) || Seen(p, q, name, StopPending))
  }

  lemma ReadyToStartWider(name: string, token: string, p: Moment, q: Moment, r: Moment, s: Moment)
    requires Since(p, q) && Since(q, r) && Since(r, s) && ReadyToStart(name, token, q, r)
    ensures ReadyToStart(name, token, p, s)
  {
    hide Heard, Since, Seen;
    Wider(p, q, r, s);
    if Seen(q, r, name, Stopped) { SeenWider(p, q, r, s, name, Stopped); }
    if Seen(q, r, name, StopPending) { SeenWider(p, q, r, s, name, StopPending); }
  }

  /** The time is up and the service did not run when it was looked at. */
  lemma SlowStart(name: string, token: string, timeoutMs: nat, status: ServiceStatus, p: Moment, q: Moment)
    requires Heard(p, q, Status(name, status)) && status.state != Running
    requires Troubled(p, q) || q.clock >= p.clock + timeoutMs
    ensures Hindered(false, name, token, timeoutMs, p, q)
  {
    if !Troubled(p, q) {
      HinderedBy(TooSlow(status), false, name, token, timeoutMs, p, q);
    }
  }

  lemma UnableToStart(name: string, token: string, timeoutMs: nat, status: ServiceStatus, p: Moment, q: Moment)
    requires Heard(p, q, Status(name, status)) && !CanComeUp(status.state)
    ensures Hindered(false, name, token, timeoutMs, p, q)
  {
    HinderedBy(WrongState(status), false, name, token, timeoutMs, p, q);
  }

  /**
   * Succeeds only when the service is Running again; a failure that is not uncertain started nothing, and every failure
   * has its reason. Nothing is started but the service of that identity, found stopped or stopping.
   */
  method StartForRestore(m: Machine, name: string, expectedToken: string, timeoutMs: u32)
    returns (result: ServiceControlResult)
    requires m.Valid()
    modifies m
    ensures m.Valid() && Extends(old(m.trace), m.trace, Starts(name)) && Since(old(m.At()), m.At())
    ensures !result.success && !result.outcomeUncertain ==> Quiet(old(m.trace), m.trace)
    ensures m.Now().log == old(m.Now().log) || m.Now().log == old(m.Now().log) + [StartAccepted(name)]
    ensures m.Now().log != old(m.Now().log) ==> ReadyToStart(name, expectedToken, old(m.At()), m.At())
    ensures result.success ==> result.stateAfter == Running && Seen(old(m.At()), m.At(), name, Running)
    ensures result.success && name in m.Now().watch.services ==> IsRunning(m.Now(), name)
    ensures !result.success ==> Hindered(false, name, expectedToken, timeoutMs, old(m.At()), m.At())
  {
    ghost var before := m.At();
    ExtendsItself(before.trace, Starts(name));
    QuietItself(before.trace);
    hide Extends, Touches, Sane, Quiet, Heard, Hindered, Refuses, Seen, CanComeUp, ReadyToStart;
    result := NO_RESULT;
    if name == "" {
      NamelessHinders(expectedToken, timeoutMs, before);
      return result.(errorCode := ERROR_INVALID_NAME);
    }
    var code := m.GetLastError();
    var known := m.OpenService(name);
    ghost var found := m.At();
    QuietMeans(before.trace, found.trace);
    QuietExtends(before.trace, found.trace, Starts(name));
    if !known {
      TroubleHinders(false, name, expectedToken, timeoutMs, before, found);
      return result.(errorCode := code);
    }
    var status, expectedCode := QueryExpected(m, name, expectedToken, false, timeoutMs);
    ghost var asked := m.At();
    QuietOn(before.trace, found.trace, asked.trace);
    QuietMeans(before.trace, asked.trace);
    QuietExtends(before.trace, asked.trace, Starts(name));
    Wider(before, found, asked, asked);
    if status.None? {
      HinderedWider(false, name, expectedToken, timeoutMs, before, found, asked, asked);
      return result.(errorCode := expectedCode);
    }
    result := result.(stateBefore := status.value.state, stateAfter := status.value.state);
    result := Restart(m, name, expectedToken, timeoutMs, status.value, result, before);
  }

  lemma NamelessHinders(token: string, timeoutMs: nat, p: Moment)
    ensures Hindered(false, "", token, timeoutMs, p, p)
  {
    HinderedBy(Nameless, false, "", token, timeoutMs, p, p);
  }

  /** What a restore does depends on the state the service was found in. */
  method Restart(
      m: Machine, name: string, ghost token: string, timeoutMs: u32, status: ServiceStatus,
      found: ServiceControlResult, ghost before: Moment)
    returns (result: ServiceControlResult)
    requires m.Valid() && Quiet(before.trace, m.trace) && Since(before, m.At())
    requires Heard(before, m.At(), Status(name, status)) && Heard(before, m.At(), Identity(name, token)) && token != ""
    requires status.state == Running && name in m.Now().watch.services ==> IsRunning(m.Now(), name)
    requires found == NO_RESULT.(stateBefore := status.state, stateAfter := status.state)
    modifies m
    ensures m.Valid() && Extends(before.trace, m.trace, Starts(name)) && Since(before, m.At())
    ensures !result.success && !result.outcomeUncertain ==> Quiet(before.trace, m.trace)
    ensures m.Now().log == Last(before.trace).log || m.Now().log == Last(before.trace).log + [StartAccepted(name)]
    ensures m.Now().log != Last(before.trace).log ==> ReadyToStart(name, token, before, m.At())
    ensures result.success ==> result.stateAfter == Running && Seen(before, m.At(), name, Running)
    ensures result.success && name in m.Now().watch.services ==> IsRunning(m.Now(), name)
    ensures !result.success ==> Hindered(false, name, token, timeoutMs, before, m.At())
  {
    hide Extends, Touches, Sane, Quiet, Heard, Hindered, Refuses, Seen, ReadyToStart;
    ghost var asked := m.At();
    result := found;
    var start := m.GetTickCount();
    ghost var timed := m.At();
    QuietOn(before.trace, asked.trace, timed.trace);
    QuietMeans(before.trace, timed.trace);
    QuietMeans(asked.trace, timed.trace);
    QuietExtends(before.trace, timed.trace, Starts(name));
    SinceItself(before);
    Wider(before, before, asked, timed);
    SeenBy(before, timed, name, status);
    var deadline := start + timeoutMs;
    if status.state == Running {
      if name in m.Now().watch.services {
        RunningStays(Last(asked.trace), m.Now(), NOTHING, name);
      }
      return result.(success := true);
    }
    if status.state == StartPending {
      var reached, state, waitCode := WaitForServiceStateUntil(m, name, Running, deadline, result.stateAfter);
      WaitedFor(before, timed, m.At(), name, status, Running);
      if !reached { SlowStart(name, token, timeoutMs, status, before, m.At()); }
      return result.(success := reached, stateAfter := state, errorCode := waitCode);
    }
    if status.state == StopPending {
      var reached, state, waitCode := WaitForServiceStateUntil(m, name, Stopped, deadline, result.stateAfter);
      WaitedFor(before, timed, m.At(), name, status, Stopped);
      result := result.(stateAfter := state);
      if !reached {
        SlowStart(name, token, timeoutMs, status, before, m.At());
        return result.(errorCode := waitCode);
      }
    } else if status.state != Stopped {
      UnableToStart(name, token, timeoutMs, status, before, m.At());
      return result.(errorCode := ERROR_SERVICE_CANNOT_ACCEPT_CTRL);
    }
    ghost var ready := m.At();
    assert ReadyToStart(name, token, before, ready) by {
      Wider(before, before, timed, ready);
      AtRest(name, token, before, ready, status);
    }
    Wider(before, before, timed, ready);
    result := StartAndWait(m, name, token, deadline, timeoutMs, status, result, before);
    if m.Now().log != Last(before.trace).log {
      ReadyToStartWider(name, token, before, before, ready, m.At());
    }
  }

  lemma AtRest(name: string, token: string, p: Moment, q: Moment, status: ServiceStatus)
    requires Heard(p, q, Status(name, status)) && (status.state == Stopped || status.state == StopPending)
    requires Heard(p, q, Identity(name, token)) && token != ""
    ensures ReadyToStart(name, token, p, q)
  {
    SeenBy(p, q, name, status);
  }

  /** What a wait leaves of what was known. */
  lemma WaitedFor(p: Moment, q: Moment, r: Moment, name: string, status: ServiceStatus, desired: ServiceState)
    requires Quiet(p.trace, q.trace) && Quiet(q.trace, r.trace) && Since(p, q) && Since(q, r)
    requires Heard(p, q, Status(name, status))
    ensures Quiet(p.trace, r.trace) && Extends(p.trace, r.trace, Starts(name)) && Since(p, r)
    ensures Last(r.trace).log == Last(p.trace).log && Heard(p, r, Status(name, status))
    ensures Troubled(q, r) ==> Troubled(p, r)
    ensures Seen(q, r, name, desired) ==> Seen(p, r, name, desired)
  {
    hide Extends, Touches, Heard, Seen;
    QuietOn(p.trace, q.trace, r.trace);
    QuietExtends(p.trace, r.trace, Starts(name));
    QuietMeans(p.trace, r.trace);
    Wider(p, q, r, r);
    Wider(p, p, q, r);
    if Seen(q, r, name, desired) { SeenWider(p, q, r, r, name, desired); }
  }

  /** The end of a restore: start the service unless somebody else has, then wait for it. */
  method StartAndWait(
      m: Machine, name: string, ghost token: string, deadline: nat, ghost timeoutMs: nat, ghost status: ServiceStatus,
      found: ServiceControlResult, ghost before: Moment)
    returns (result: ServiceControlResult)
    requires m.Valid() && Quiet(before.trace, m.trace) && Since(before, m.At()) && !found.success && !found.changed
    requires Heard(before, m.At(), Status(name, status)) && status.state != Running
    requires before.clock + timeoutMs <= deadline
    modifies m
    ensures Since(old(m.At()), m.At())
    ensures m.Valid() && Extends(before.trace, m.trace, Starts(name)) && Since(before, m.At())
    ensures !result.success && !result.outcomeUncertain ==> Quiet(before.trace, m.trace)
    ensures m.Now().log == Last(before.trace).log || m.Now().log == Last(before.trace).log + [StartAccepted(name)]
    ensures result.success ==>
              result.stateAfter == Running && IsRunning(m.Now(), name) && Seen(before, m.At(), name, Running)
    ensures !result.success ==> Hindered(false, name, token, timeoutMs, before, m.At())
  {
    hide Extends, Touches, Sane, Quiet, Heard, Hindered, Seen;
    result := found;
    ghost var ready := m.At();
    QuietMeans(before.trace, ready.trace);
    var started, startCode := m.StartService(name);
    ghost var asked := m.At();
    Wider(before, before, ready, asked);
    Wider(before, ready, asked, asked);
    if started {
      QuietThenExtends(before.trace, ready.trace, asked.trace, Starts(name));
      result := result.(changed := true);
    } else {
      QuietOn(before.trace, ready.trace, asked.trace);
      QuietMeans(before.trace, asked.trace);
      QuietExtends(before.trace, asked.trace, Starts(name));
      if startCode != ERROR_SERVICE_ALREADY_RUNNING {
        TroubleHinders(false, name, token, timeoutMs, before, asked);
        return result.(errorCode := startCode);
      }
    }
    var reached, state, waitCode := WaitForServiceStateUntil(m, name, Running, deadline, result.stateAfter);
    StartedThenQuiet(before, asked, m.At(), name, result.changed);
    Wider(before, before, asked, m.At());
    SinceOn(ready, asked, m.At());
    if reached {
      SeenWider(before, asked, m.At(), m.At(), name, Running);
    } else {
      Wider(before, asked, m.At(), m.At());
      SlowStart(name, token, timeoutMs, status, before, m.At());
    }
    result := result.(stateAfter := state, errorCode := waitCode);
    result := if reached then result.(success := true) else result.(outcomeUncertain := result.changed);
  }

  lemma StartedThenQuiet(p: Moment, q: Moment, r: Moment, name: string, changed: bool)
    requires Extends(p.trace, q.trace, Starts(name)) && Quiet(q.trace, r.trace) && Since(p, q) && Since(q, r)
    requires !changed ==> Quiet(p.trace, q.trace)
    ensures Extends(p.trace, r.trace, Starts(name)) && Last(r.trace).log == Last(q.trace).log && Since(p, r)
    ensures !changed ==> Quiet(p.trace, r.trace)
  {
    QuietMeans(q.trace, r.trace);
    if !changed { QuietOn(p.trace, q.trace, r.trace); }
    hide Extends, Touches;
  }
}
