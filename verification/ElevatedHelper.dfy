/**
 * A service is stopped and started by a second, elevated program. What the first one believes afterwards must be true
 * of the service, whatever fails in between.
 */
module ElevatedHelper {
  import opened Types
  import opened Utf8
  import opened Wire
  import opened Policy
  import opened Worlds
  import opened Moments
  import opened Refusals
  import opened Machines
  import opened ServiceApi

  const ERROR_BAD_CONFIGURATION: u32 := 1610
  const ERROR_POLICY: u32 := 1260
  const ERROR_NOT_SUPPORTED: u32 := 50
  const ERROR_INVALID_DATA: u32 := 13
  const ERROR_ACCESS_DENIED: u32 := 5
  const ERROR_CANCELLED: u32 := 1223
  const ERROR_ELEVATION_REQUIRED: u32 := 740

  // ----- Texts on the wire -----

  /** The bytes of a text; a character that is no byte becomes one that the protocol refuses. */
  function BytesOf(s: string): (b: seq<byte>)
    ensures |b| == |s|
  {
    seq(|s|, i requires 0 <= i < |s| => if s[i] < 256 as char then s[i] as int else 0)
  }

  function TextOf(b: seq<byte>): string {
    seq(|b|, i requires 0 <= i < |b| => b[i] as char)
  }

  /** A name the protocol carries arrives as it was. */
  lemma NameArrives(name: string)
    requires IsText(BytesOf(name), true)
    ensures TextOf(BytesOf(name)) == name
  {
    TextIsPrintable(BytesOf(name), true);
    forall i | 0 <= i < |name| ensures TextOf(BytesOf(name))[i] == name[i] {
      assert BytesOf(name)[i] in BytesOf(name);
    }
  }

  lemma TokenArrives(token: string)
    requires IsIdentityToken(BytesOf(token))
    ensures TextOf(BytesOf(token)) == token
  {
    forall i | 0 <= i < |token| ensures TextOf(BytesOf(token))[i] == token[i] {
      assert BytesOf(token)[i] in BytesOf(token);
    }
  }

  // ----- What a command may do -----

  function ScopeOf(command: u16, name: string): Scope {
    if command == STOP_SERVICE_TEMPORARY then Stops(name)
    else if command == START_SERVICE_RESTORE then Starts(name)
    else NOTHING
  }

  function EffectOf(command: u16, name: string): Effect {
    if command == STOP_SERVICE_TEMPORARY then StopAccepted(name) else StartAccepted(name)
  }

  /**
   * What an answer tells: a request that was rejected or failed had no effect, a stop that succeeded was accepted, and
   * a successful start leaves the service Running.
   */
  ghost predicate Truthful(command: u16, name: string, answer: Response, before: Trace, after: Trace) {
    && (answer.status == REJECTED || answer.status == FAILED ==> Quiet(before, after))
    && (command == STOP_SERVICE_TEMPORARY && answer.status == SUCCEEDED ==>
          answer.stateAfter == Stopped && Last(after).log == Last(before).log + [StopAccepted(name)])
    && (command == START_SERVICE_RESTORE && answer.status == SUCCEEDED && name in Last(after).watch.services ==>
          IsRunning(Last(after), name))
  }

  ghost predicate DoesAtMost(command: u16, name: string, before: Trace, after: Trace) {
    && Extends(before, after, ScopeOf(command, name))
    && (Last(after).log == Last(before).log || Last(after).log == Last(before).log + [EffectOf(command, name)])
  }

  lemma QuietDoesNothing(command: u16, name: string, before: Trace, after: Trace)
    requires Quiet(before, after)
    ensures DoesAtMost(command, name, before, after)
  {
    QuietMeans(before, after);
    ExtendsItself(before, ScopeOf(command, name));
  }

  // ----- Why the elevated side acts, and why not -----

  /** A service ready to be stopped was found so between the two moments. */
  ghost predicate FoundReady(name: string, token: string, p: Moment, q: Moment) {
    exists pid, x, mid, y :: Since(p, x) && Since(y, q) && ReadyToStop(name, token, pid, x, mid, y)
  }

  /** What must have been made sure of before a control is sent. */
  ghost predicate Permitted(command: u16, name: string, token: string, p: Moment, q: Moment) {
    && Leave(command == STOP_SERVICE_TEMPORARY, name, token, p, q)
    && if command == STOP_SERVICE_TEMPORARY then FoundReady(name, token, p, q) else ReadyToStart(name, token, p, q)
  }

  /** Something was done, but only with permission. */
  ghost predicate ActsByLeave(command: u16, name: string, token: string, p: Moment, q: Moment) {
    Last(q.trace).log != Last(p.trace).log ==> Permitted(command, name, token, p, q)
  }

  lemma PermittedWider(command: u16, name: string, token: string, p: Moment, q: Moment, r: Moment, s: Moment)
    requires Since(p, q) && Since(q, r) && Since(r, s) && Permitted(command, name, token, q, r)
    ensures Permitted(command, name, token, p, s)
  {
    hide Since, Leave, ReadyToStart, ReadyToStop;
    LeaveWider(command == STOP_SERVICE_TEMPORARY, name, token, p, q, r, s);
    if command == STOP_SERVICE_TEMPORARY {
      var pid, x, mid, y :| Since(q, x) && Since(y, r) && ReadyToStop(name, token, pid, x, mid, y);
      SinceOn(p, q, x);
      SinceOn(y, r, s);
    } else {
      ReadyToStartWider(name, token, p, q, r, s);
    }
  }

  lemma ActsByLeaveWider(command: u16, name: string, token: string, p: Moment, q: Moment, r: Moment, s: Moment)
    requires Since(p, q) && Since(q, r) && Since(r, s) && ActsByLeave(command, name, token, q, r)
    requires Last(q.trace).log == Last(p.trace).log && Last(s.trace).log == Last(r.trace).log
    ensures ActsByLeave(command, name, token, p, s)
  {
    hide Since, Permitted;
    if Last(q.trace).log != Last(r.trace).log {
      PermittedWider(command, name, token, p, q, r, s);
    }
  }

  lemma NothingNeedsLeave(command: u16, name: string, token: string, p: Moment, q: Moment)
    requires Quiet(p.trace, q.trace)
    ensures ActsByLeave(command, name, token, p, q)
  {
    QuietMeans(p.trace, q.trace);
  }

  /** Granted: the service is as asked. */
  predicate Grants(command: u16, response: Response) {
    && response.status == SUCCEEDED
    && response.stateAfter == if command == STOP_SERVICE_TEMPORARY then Stopped else Running
  }

  /**
   * Whatever does not grant the request has its reason; what does can be encoded, and a service said to run again was
   * found running.
   */
  ghost predicate Explained(request: Request, response: Response, p: Moment, q: Moment) {
    && (IsCommand(request.command) && !Grants(request.command, response) ==>
          Hindered(request.command == STOP_SERVICE_TEMPORARY, TextOf(request.serviceName),
                   TextOf(request.identityToken), request.timeoutMs, p, q))
    && (response.status == SUCCEEDED ==>
          && IsText(response.message, false) && |response.message| <= 512 && response.errorCode == 0
          && Grants(request.command, response))
    && (response.status == SUCCEEDED && request.command == START_SERVICE_RESTORE ==>
          Seen(p, q, TextOf(request.serviceName), Running))
  }

  lemma ExplainedWider(request: Request, response: Response, p: Moment, q: Moment, r: Moment, s: Moment)
    requires Since(p, q) && Since(q, r) && Since(r, s) && Explained(request, response, q, r)
    ensures Explained(request, response, p, s)
  {
    hide Since, Hindered, Seen, TextOf, IsText;
    var stop, name, token := request.command == STOP_SERVICE_TEMPORARY, TextOf(request.serviceName),
                             TextOf(request.identityToken);
    if Hindered(stop, name, token, request.timeoutMs, q, r) {
      HinderedWider(stop, name, token, request.timeoutMs, p, q, r, s);
    }
    if Seen(q, r, name, Running) {
      SeenWider(p, q, r, s, name, Running);
    }
  }

  /** An answer that is no success is explained by what hindered the request. */
  lemma HindranceExplains(request: Request, response: Response, p: Moment, q: Moment)
    requires response.status != SUCCEEDED
    requires Hindered(request.command == STOP_SERVICE_TEMPORARY, TextOf(request.serviceName),
                      TextOf(request.identityToken), request.timeoutMs, p, q)
             || !IsCommand(request.command)
    ensures Explained(request, response, p, q)
  {
    hide Hindered, TextOf;
  }

  /** The messages of successful answers. */
  predicate IsPlain(message: string) {
    |message| <= 512 && forall c | c in message :: ' ' <= c <= '~'
  }

  lemma PlainIsText(message: string)
    requires IsPlain(message)
    ensures IsText(BytesOf(message), false) && |BytesOf(message)| <= 512
  {
    forall b | b in BytesOf(message) ensures 0x20 <= b < 0x7f {
      var i :| 0 <= i < |message| && BytesOf(message)[i] == b;
      assert message[i] in message;
    }
    AsciiIsText(BytesOf(message));
  }

  // ----- The elevated side -----

  /** Control characters in a message become blanks. */
  method SanitizeMessage(value: seq<byte>) returns (clean: seq<byte>)
    ensures |clean| == |value|
    ensures forall i | 0 <= i < |value| :: clean[i] == if value[i] < 0x20 then 0x20 else value[i]
  {
    clean := value;
    for i := 0 to |value|
      invariant |clean| == |value|
      invariant forall k | 0 <= k < i :: clean[k] == if value[k] < 0x20 then 0x20 else value[k]
      invariant forall k | i <= k < |value| :: clean[k] == value[k]
    {
      if clean[i] < 0x20 {
        clean := clean[i := 0x20];
      }
    }
  }

  method FailureResponse(request: Request, status: u16, before: ServiceState, after: ServiceState, code: u32)
    returns (response: Response)
    ensures response.requestId == request.requestId && response.nonce == request.nonce && response.status == status
    ensures response.stateBefore == before && response.stateAfter == after && response.errorCode == code
  {
    var description: seq<byte> := *;
    var message := SanitizeMessage(description);
    return Response(request.requestId, status, before, after, code, request.nonce, message);
  }

  /** A successful answer. */
  method SuccessResponse(request: Request, before: ServiceState, after: ServiceState, message: string)
    returns (response: Response)
    requires IsPlain(message)
    ensures response.requestId == request.requestId && response.nonce == request.nonce
    ensures response.status == SUCCEEDED && response.stateBefore == before && response.stateAfter == after
    ensures response.errorCode == 0 && IsText(response.message, false) && |response.message| <= 512
  {
    PlainIsText(message);
    hide IsText;
    return Response(request.requestId, SUCCEEDED, before, after, 0, request.nonce, BytesOf(message));
  }

  /** What a request is decided by: a trusted configuration and a complete inventory, with nothing done yet. */
  ghost predicate Prepared(config: Config, snapshot: SystemSnapshot, p: Moment, q: Moment) {
    && Since(p, q) && Quiet(p.trace, q.trace)
    && Heard(p, q, Trusted(config)) && Heard(p, q, Sampled(snapshot)) && InventoryComplete(snapshot)
  }

  /**
   * Decides about a request by a trusted configuration and the context of a complete snapshot, all given since
   * `before`. It acts only with their permission, whatever it answers is true, and whatever it does not grant has its
   * reason.
   */
  method HandleElevatedRequest(
      m: Machine, request: Request, config: Config, context: RuntimeContext, ghost snapshot: SystemSnapshot,
      ghost before: Moment)
    returns (response: Response)
    requires m.Valid() && context == ContextOf(snapshot, config.remoteDebugPorts)
    requires Prepared(config, snapshot, before, m.At())
    modifies m
    ensures m.Valid() && Since(before, m.At())
    ensures response.requestId == request.requestId && response.nonce == request.nonce
    ensures DoesAtMost(request.command, TextOf(request.serviceName), before.trace, m.trace)
    ensures Truthful(request.command, TextOf(request.serviceName), response, before.trace, m.trace)
    ensures ActsByLeave(request.command, TextOf(request.serviceName), TextOf(request.identityToken), before, m.At())
    ensures Explained(request, response, before, m.At())
  {
    hide Extends, Touches, Sane, TextOf, IsRunning, CanStopTemporary, CanRestore, Heard, Explained, Quiet, ActsByLeave,
         Hindered, Seen, IsText, ContextOf, InventoryComplete, Described, IsPlain;
    ghost var ready := m.At();
    ghost var stop := request.command == STOP_SERVICE_TEMPORARY;
    var name, token := TextOf(request.serviceName), TextOf(request.identityToken);
    var service, code := Query(m, name);
    ghost var asked := m.At();
    QuietOn(before.trace, ready.trace, asked.trace);
    QuietDoesNothing(request.command, name, before.trace, asked.trace);
    NothingNeedsLeave(request.command, name, token, before, asked);
    SinceOn(before, ready, asked);
    if service.None? {
      LookupFailed(stop, name, token, request.timeoutMs, before, ready, asked);
      response := FailureResponse(request, FAILED, ServiceState.Unknown, ServiceState.Unknown, code);
      HindranceExplains(request, response, before, asked);
      return;
    }
    var state := service.value.state;
    GroundsGiven(config, snapshot, service.value, before, ready, asked);
    ghost var grounds := Grounds(config, snapshot, service.value);
    if !service.value.identityVerified || service.value.identityToken != token {
      AnotherService(stop, name, token, request.timeoutMs, before, asked, service.value);
      response := FailureResponse(request, REJECTED, state, state, ERROR_REVISION_MISMATCH);
      HindranceExplains(request, response, before, asked);
      return;
    }
    if request.command == STOP_SERVICE_TEMPORARY {
      if !CanStopTemporary(config, service.value, context) {
        PolicyRefuses(stop, name, token, request.timeoutMs, before, asked, grounds);
        response := FailureResponse(request, REJECTED, state, state, ERROR_POLICY);
        HindranceExplains(request, response, before, asked);
        return;
      }
    } else if request.command == START_SERVICE_RESTORE {
      if state == Running {
        AlreadyRunningIsPlain();
        response := SuccessResponse(request, state, state, "service was already running");
        FoundRunning(request, response, before, asked, service.value);
        return;
      }
      if !CanRestore(config, service.value, context) {
        PolicyRefuses(stop, name, token, request.timeoutMs, before, asked, grounds);
        response := FailureResponse(request, REJECTED, state, state, ERROR_POLICY);
        HindranceExplains(request, response, before, asked);
        return;
      }
    } else {
      response := FailureResponse(request, REJECTED, state, state, ERROR_NOT_SUPPORTED);
      HindranceExplains(request, response, before, asked);
      return;
    }
    GroundsAllow(stop, name, token, before, asked, grounds);
    response := Control(m, request, name, token, service.value, before);
  }

  lemma AlreadyRunningIsPlain()
    ensures IsPlain("service was already running")
  {
  }

  lemma ControlledIsPlain()
    ensures IsPlain("service stopped temporarily") && IsPlain("service restored to running")
  {
  }

  lemma LookupFailed(stop: bool, name: string, token: string, timeoutMs: nat, p: Moment, q: Moment, r: Moment)
    requires Since(p, q) && Since(q, r) && (name == "" || Troubled(q, r))
    ensures Hindered(stop, name, token, timeoutMs, p, r)
  {
    if name == "" {
      HinderedBy(Nameless, stop, name, token, timeoutMs, p, r);
    } else {
      Wider(p, q, r, r);
    }
  }

  /** The policy, and then the service, were asked about. */
  lemma GroundsGiven(
      config: Config, snapshot: SystemSnapshot, service: ServiceSnapshot, p: Moment, q: Moment, r: Moment)
    requires Prepared(config, snapshot, p, q) && Since(q, r) && Described(q, r, service)
    ensures Given(p, r, Grounds(config, snapshot, service)) && Described(p, r, service)
  {
    hide Heard, Described, Quiet, InventoryComplete;
    SinceItself(p);
    SinceItself(r);
    Wider(p, p, q, r);
    DescribedWider(p, q, r, r, service);
  }

  lemma AnotherService(
      stop: bool, name: string, token: string, timeoutMs: nat, p: Moment, q: Moment, service: ServiceSnapshot)
    requires Described(p, q, service) && service.name == name && service.identityToken != token
    ensures Hindered(stop, name, token, timeoutMs, p, q)
  {
    HinderedBy(OtherService(service.identityToken), stop, name, token, timeoutMs, p, q);
  }

  lemma PolicyRefuses(stop: bool, name: string, token: string, timeoutMs: nat, p: Moment, q: Moment, g: Grounds)
    requires Given(p, q, g) && g.service.name == name && g.service.identityToken == token
    requires if stop then !g.AllowStop() else g.service.state != Running && !g.AllowRestore()
    ensures Hindered(stop, name, token, timeoutMs, p, q)
  {
    HinderedBy(AgainstPolicy(g), stop, name, token, timeoutMs, p, q);
  }

  lemma FoundRunning(request: Request, response: Response, p: Moment, q: Moment, service: ServiceSnapshot)
    requires Described(p, q, service) && service.name == TextOf(request.serviceName) && service.state == Running
    requires request.command == START_SERVICE_RESTORE && response.status == SUCCEEDED && response.stateAfter == Running
    requires IsText(response.message, false) && |response.message| <= 512 && response.errorCode == 0
    ensures Explained(request, response, p, q)
  {
    hide TextOf, IsText;
    SeenBy(p, q, service.name, ServiceStatus(service.state, service.pid, service.acceptsStop));
  }

  lemma GroundsAllow(stop: bool, name: string, token: string, p: Moment, q: Moment, g: Grounds)
    requires Given(p, q, g) && g.service.name == name && g.service.identityToken == token
    requires if stop then g.AllowStop() else g.AllowRestore()
    ensures Leave(stop, name, token, p, q)
  {
    assert g.service.identityToken != "";
    AllowedIsFair(stop, g);
    LeaveBy(stop, name, token, p, q, g);
  }

  /** The control itself, once everything has been checked. */
  method Control(
      m: Machine, request: Request, name: string, token: string, service: ServiceSnapshot, ghost before: Moment)
    returns (response: Response)
    requires m.Valid() && Quiet(before.trace, m.trace) && Since(before, m.At())
    requires name == TextOf(request.serviceName) && token == TextOf(request.identityToken)
    requires Described(before, m.At(), service) && service.name == name
    requires IsCommand(request.command)
    requires Leave(request.command == STOP_SERVICE_TEMPORARY, name, token, before, m.At())
    modifies m
    ensures m.Valid() && Since(before, m.At())
    ensures response.requestId == request.requestId && response.nonce == request.nonce
    ensures DoesAtMost(request.command, name, before.trace, m.trace)
    ensures Truthful(request.command, name, response, before.trace, m.trace)
    ensures ActsByLeave(request.command, name, token, before, m.At())
    ensures Explained(request, response, before, m.At())
  {
    hide Extends, Touches, Sane, IsRunning, TextOf, Heard, Explained, Hindered, StopHindered, Seen, IsText, IsPlain,
         ReadyToStop, ReadyToStart, Leave, Described, Since, Quiet, DoesAtMost, Truthful, ActsByLeave;
    ghost var checked := m.At();
    var controlled: ServiceControlResult;
    if request.command == STOP_SERVICE_TEMPORARY {
      ghost var mid;
      controlled, mid := StopTemporary(m, name, token, service.pid, request.timeoutMs);
      StopControlled(request, name, token, service, controlled, before, checked, mid, m.At());
    } else {
      controlled := StartForRestore(m, name, token, request.timeoutMs);
      StartControlled(request, name, token, controlled, before, checked, m.At());
    }
    if !controlled.success {
      response := FailureResponse(request, if controlled.outcomeUncertain then UNCERTAIN else FAILED,
                                  controlled.stateBefore, controlled.stateAfter, controlled.errorCode);
      HindranceExplains(request, response, before, m.At());
      AnswerIsTrue(request.command, name, response, controlled, before.trace, m.trace);
      return;
    }
    ControlledIsPlain();
    response := SuccessResponse(request, controlled.stateBefore, controlled.stateAfter,
                                if request.command == STOP_SERVICE_TEMPORARY then "service stopped temporarily"
                                else "service restored to running");
    AnswerIsTrue(request.command, name, response, controlled, before.trace, m.trace);
    SuccessExplains(request, response, before, m.At());
  }

  lemma SuccessExplains(request: Request, response: Response, p: Moment, q: Moment)
    requires response.status == SUCCEEDED && Grants(request.command, response)
    requires IsText(response.message, false) && |response.message| <= 512 && response.errorCode == 0
    requires request.command == START_SERVICE_RESTORE ==> Seen(p, q, TextOf(request.serviceName), Running)
    ensures Explained(request, response, p, q)
  {
    hide TextOf, IsText, Seen, Hindered;
  }

  /** What is true of the service after a control. */
  ghost predicate TrueOf(command: u16, name: string, controlled: ServiceControlResult, before: Trace, after: Trace) {
    && (!controlled.success && !controlled.outcomeUncertain ==> Quiet(before, after))
    && (controlled.success && command == STOP_SERVICE_TEMPORARY ==>
          controlled.stateAfter == Stopped && Last(after).log == Last(before).log + [StopAccepted(name)])
    && (controlled.success && command == START_SERVICE_RESTORE ==>
          && controlled.stateAfter == Running
          && (name in Last(after).watch.services ==> IsRunning(Last(after), name)))
  }

  lemma AnswerIsTrue(
      command: u16, name: string, answer: Response, controlled: ServiceControlResult, before: Trace, after: Trace)
    requires TrueOf(command, name, controlled, before, after) && IsCommand(command)
    requires answer.stateAfter == controlled.stateAfter
    requires answer.status
             == (if controlled.success then SUCCEEDED else if controlled.outcomeUncertain then UNCERTAIN else FAILED)
    ensures Truthful(command, name, answer, before, after)
    ensures controlled.success ==> Grants(command, answer)
  {
    hide Quiet, IsRunning;
  }

  lemma StopControlled(
      request: Request, name: string, token: string, service: ServiceSnapshot, controlled: ServiceControlResult,
      p: Moment, q: Moment, mid: Moment, r: Moment)
    requires Quiet(p.trace, q.trace) && Since(p, q) && Since(q, r) && Extends(q.trace, r.trace, Stops(name))
    requires Described(p, q, service) && service.name == name && request.command == STOP_SERVICE_TEMPORARY
    requires Leave(true, name, token, p, q)
    requires !controlled.success && !controlled.outcomeUncertain ==> Quiet(q.trace, r.trace)
    requires Last(r.trace).log == Last(q.trace).log || Last(r.trace).log == Last(q.trace).log + [StopAccepted(name)]
    requires controlled.success ==>
               controlled.stateAfter == Stopped && Last(r.trace).log == Last(q.trace).log + [StopAccepted(name)]
    requires Last(r.trace).log != Last(q.trace).log ==> ReadyToStop(name, token, service.pid, q, mid, r)
    requires !controlled.success ==> StopHindered(name, token, service.pid, request.timeoutMs, q, r)
    ensures DoesAtMost(request.command, name, p.trace, r.trace) && Since(p, r)
    ensures TrueOf(request.command, name, controlled, p.trace, r.trace)
    ensures ActsByLeave(request.command, name, token, p, r)
    ensures !controlled.success ==> Hindered(true, name, token, request.timeoutMs, p, r)
  {
    hide Extends, Touches, Heard, Hindered, StopHindered, ReadyToStop, Leave, Described, Since, Quiet, IsRunning;
    QuietMeans(p.trace, q.trace);
    QuietThenExtends(p.trace, q.trace, r.trace, Stops(name));
    SinceOn(p, q, r);
    SinceItself(p);
    SinceItself(r);
    if !controlled.success && !controlled.outcomeUncertain { QuietOn(p.trace, q.trace, r.trace); }
    if Last(r.trace).log != Last(p.trace).log {
      LeaveWider(true, name, token, p, p, q, r);
      assert FoundReady(name, token, p, r);
    }
    if !controlled.success {
      StopHinderedWider(name, token, service.pid, request.timeoutMs, p, q, r, r);
      DescribedWider(p, p, q, r, service);
      StopHinderedMeans(name, token, service, request.timeoutMs, p, r);
    }
  }

  /** The process that was looked up is gone, or was none. */
  lemma StopHinderedMeans(name: string, token: string, service: ServiceSnapshot, timeoutMs: nat, p: Moment, q: Moment)
    requires StopHindered(name, token, service.pid, timeoutMs, p, q)
    requires Described(p, q, service) && service.name == name
    ensures Hindered(true, name, token, timeoutMs, p, q)
  {
    hide Heard;
    var first := ServiceStatus(service.state, service.pid, service.acceptsStop);
    if Hindered(true, name, token, timeoutMs, p, q) {
    } else if service.pid == 0 {
      HinderedBy(WrongState(first), true, name, token, timeoutMs, p, q);
    } else {
      var second :| Heard(p, q, Status(name, second)) && second.pid != service.pid;
      HinderedBy(Restarted(first, second), true, name, token, timeoutMs, p, q);
    }
  }

  lemma StartControlled(
      request: Request, name: string, token: string, controlled: ServiceControlResult, p: Moment, q: Moment, r: Moment)
    requires Quiet(p.trace, q.trace) && Since(p, q) && Since(q, r) && Extends(q.trace, r.trace, Starts(name))
    requires request.command == START_SERVICE_RESTORE && Leave(false, name, token, p, q)
    requires !controlled.success && !controlled.outcomeUncertain ==> Quiet(q.trace, r.trace)
    requires Last(r.trace).log == Last(q.trace).log || Last(r.trace).log == Last(q.trace).log + [StartAccepted(name)]
    requires Last(r.trace).log != Last(q.trace).log ==> ReadyToStart(name, token, q, r)
    requires controlled.success ==> controlled.stateAfter == Running && Seen(q, r, name, Running)
    requires controlled.success && name in Last(r.trace).watch.services ==> IsRunning(Last(r.trace), name)
    requires !controlled.success ==> Hindered(false, name, token, request.timeoutMs, q, r)
    ensures DoesAtMost(request.command, name, p.trace, r.trace) && Since(p, r)
    ensures TrueOf(request.command, name, controlled, p.trace, r.trace)
    ensures ActsByLeave(request.command, name, token, p, r)
    ensures controlled.success ==> Seen(p, r, name, Running)
    ensures !controlled.success ==> Hindered(false, name, token, request.timeoutMs, p, r)
  {
    hide Extends, Touches, Heard, Hindered, ReadyToStart, Leave, Since, Quiet, IsRunning, Seen;
    QuietMeans(p.trace, q.trace);
    QuietThenExtends(p.trace, q.trace, r.trace, Starts(name));
    SinceOn(p, q, r);
    SinceItself(p);
    SinceItself(r);
    if !controlled.success && !controlled.outcomeUncertain { QuietOn(p.trace, q.trace, r.trace); }
    if Last(r.trace).log != Last(p.trace).log {
      LeaveWider(false, name, token, p, p, q, r);
      ReadyToStartWider(name, token, p, q, r, r);
    }
    if controlled.success {
      SeenWider(p, q, r, r, name, Running);
    } else {
      HinderedWider(false, name, token, request.timeoutMs, p, q, r, r);
    }
  }

  method ConfigurationFailure(request: Request, code: u32, message: string) returns (response: Response)
    ensures response.requestId == request.requestId && response.nonce == request.nonce && response.status == FAILED
  {
    return Response(request.requestId, FAILED, ServiceState.Unknown, ServiceState.Unknown, code, request.nonce,
                    BytesOf(message));
  }

  /** Checks the state of the machine and hands the request on. */
  method Respond(m: Machine, request: Request) returns (response: Response)
    requires m.Valid()
    modifies m
    ensures m.Valid() && Since(old(m.At()), m.At())
    ensures response.requestId == request.requestId && response.nonce == request.nonce
    ensures DoesAtMost(request.command, TextOf(request.serviceName), old(m.trace), m.trace)
    ensures Truthful(request.command, TextOf(request.serviceName), response, old(m.trace), m.trace)
    ensures ActsByLeave(request.command, TextOf(request.serviceName), TextOf(request.identityToken), old(m.At()),
                        m.At())
    ensures Explained(request, response, old(m.At()), m.At())
  {
    hide Extends, Touches, Sane, TextOf, IsRunning, BytesOf, ContextOf, Heard, Explained, Quiet, ActsByLeave, Hindered,
         InventoryComplete, DoesAtMost;
    ghost var before := m.At();
    ghost var name, token := TextOf(request.serviceName), TextOf(request.identityToken);
    var trusted := m.LoadTrusted();
    ghost var loaded := m.At();
    QuietDoesNothing(request.command, name, before.trace, loaded.trace);
    NothingNeedsLeave(request.command, name, token, before, loaded);
    if !trusted.Some? {
      response := ConfigurationFailure(request, ERROR_BAD_CONFIGURATION,
                                       "trusted helper configuration could not be loaded");
      TroubleExplains(request, response, before, loaded);
      return;
    }
    var snapshot := m.Sample();
    ghost var sampled := m.At();
    var code := m.GetLastError();
    QuietOn(before.trace, loaded.trace, sampled.trace);
    QuietDoesNothing(request.command, name, before.trace, sampled.trace);
    NothingNeedsLeave(request.command, name, token, before, sampled);
    SinceItself(before);
    SinceItself(sampled);
    Wider(before, before, loaded, sampled);
    Wider(before, loaded, sampled, sampled);
    if snapshot.None? {
      response := ConfigurationFailure(request, code, "helper protection state could not be collected");
      TroubleExplains(request, response, before, sampled);
      return;
    }
    if !snapshot.value.processComplete || !snapshot.value.tcpComplete {
      response := ConfigurationFailure(request, ERROR_INVALID_DATA, "helper protection state is incomplete");
      IncompleteExplains(request, response, before, sampled, snapshot.value);
      return;
    }
    var context := BuildRuntimeContext(snapshot.value, trusted.value.remoteDebugPorts);
    assert InventoryComplete(snapshot.value) by { CompleteMeans(snapshot.value); }
    response := HandleElevatedRequest(m, request, trusted.value, context, snapshot.value, before);
  }

  lemma CompleteMeans(s: SystemSnapshot)
    ensures InventoryComplete(s) <==> s.processComplete && s.tcpComplete
  {
  }

  lemma TroubleExplains(request: Request, response: Response, p: Moment, q: Moment)
    requires Troubled(p, q) && response.status == FAILED
    ensures Explained(request, response, p, q)
  {
    hide TextOf;
    TroubleHinders(request.command == STOP_SERVICE_TEMPORARY, TextOf(request.serviceName),
                   TextOf(request.identityToken), request.timeoutMs, p, q);
  }

  lemma IncompleteExplains(request: Request, response: Response, p: Moment, q: Moment, s: SystemSnapshot)
    requires Heard(p, q, Sampled(s)) && !(s.processComplete && s.tcpComplete) && response.status == FAILED
    ensures Explained(request, response, p, q)
  {
    hide TextOf;
    HinderedBy(UnknownInventory(s), request.command == STOP_SERVICE_TEMPORARY, TextOf(request.serviceName),
               TextOf(request.identityToken), request.timeoutMs, p, q);
  }

  /**
   * The helper program, from its start to the bytes it writes back. It acts only on the request of the client that
   * gave it the nonce, and only with permission; any exit before the request is handled does nothing, writes nothing
   * and has its reason, and so has every answer that is not written or does not grant the request.
   */
  method HelperMain(m: Machine, bytes: seq<byte>, expectedNonce: Nonce, ghost sent: Request)
    returns (answer: Option<seq<byte>>, ghost response: Option<Response>)
    requires m.Valid() && ValidRequest(sent) && bytes == RequestBytes(sent)
    modifies m
    ensures m.Valid() && DoesAtMost(sent.command, TextOf(sent.serviceName), old(m.trace), m.trace)
    ensures Since(old(m.At()), m.At())
    ensures response.None? || sent.nonce != expectedNonce ==> answer.None? && Quiet(old(m.trace), m.trace)
    ensures response.None? ==> Troubled(old(m.At()), m.At()) || sent.nonce != expectedNonce
    ensures response.Some? ==>
              && response.value.requestId == sent.requestId && response.value.nonce == sent.nonce
              && Truthful(sent.command, TextOf(sent.serviceName), response.value, old(m.trace), m.trace)
              && Explained(sent, response.value, old(m.At()), m.At())
    ensures ActsByLeave(sent.command, TextOf(sent.serviceName), TextOf(sent.identityToken), old(m.At()), m.At())
    ensures answer.Some? ==> ValidResponse(response.value) && answer.value == ResponseBytes(response.value)
    ensures answer.None? && response.Some? ==> response.value.status != SUCCEEDED
  {
    ghost var before := m.At();
    ghost var name, token := TextOf(sent.serviceName), TextOf(sent.identityToken);
    hide Extends, Touches, Sane, TextOf, ValidRequest, ValidResponse, RequestBytes, ResponseBytes, Truthful, Explained,
         ActsByLeave, Since, DoesAtMost;
    response := None;
    // Elevation, the pipe, the peer and its image, and the read itself.
    var connected, code := m.Try();
    ghost var checked := m.At();
    QuietDoesNothing(sent.command, name, before.trace, checked.trace);
    NothingNeedsLeave(sent.command, name, token, before, checked);
    if !connected {
      return None, None;
    }
    var request := DecodeRequest(bytes);
    assert request == Some(sent) by {
      RequestDecodesExactly(bytes, sent);
      if request.Some? { RequestDecodesExactly(bytes, request.value); }
    }
    if request.None? || request.value.nonce != expectedNonce {
      return None, None;
    }
    QuietMeans(before.trace, checked.trace);
    var r := Respond(m, request.value);
    DoesAtMostSince(sent.command, name, before.trace, checked.trace, m.trace);
    TruthSince(sent.command, name, r, before.trace, checked.trace, m.trace);
    SinceItself(m.At());
    ExplainedWider(sent, r, before, checked, m.At(), m.At());
    ActsByLeaveWider(sent.command, name, token, before, checked, m.At(), m.At());
    SinceOn(before, checked, m.At());
    response := Some(r);
    answer := EncodeResponse(r);
    if answer.None? { SuccessIsWritten(sent, r, before, m.At()); }
  }

  /** A successful answer to a valid request can be encoded. */
  lemma SuccessIsWritten(request: Request, response: Response, p: Moment, q: Moment)
    requires ValidRequest(request) && response.requestId == request.requestId && response.nonce == request.nonce
    requires Explained(request, response, p, q) && !ValidResponse(response)
    ensures response.status != SUCCEEDED
  {
    hide IsText, TextOf, Hindered, Seen;
  }

  lemma TruthSince(command: u16, name: string, r: Response, before: Trace, checked: Trace, after: Trace)
    requires Quiet(before, checked) && Truthful(command, name, r, checked, after)
    ensures Truthful(command, name, r, before, after)
  {
    QuietMeans(before, checked);
  }

  lemma DoesAtMostSince(command: u16, name: string, before: Trace, checked: Trace, after: Trace)
    requires Quiet(before, checked) && DoesAtMost(command, name, checked, after)
    ensures DoesAtMost(command, name, before, after)
  {
    hide Extends, Quiet;
    QuietMeans(before, checked);
    QuietThenExtends(before, checked, after, ScopeOf(command, name));
  }

  // ----- The client side -----

  datatype ElevatedHelperResult = ElevatedHelperResult(
    transportSuccess: bool, requestSent: bool, userCancelled: bool, response: Response, errorCode: u32,
    errorMessage: string)

  const NO_RESPONSE :=
    Response(0, 0, ServiceState.Unknown, ServiceState.Unknown, 0, seq(NONCE_BYTES, i => 0), [])

  const NO_ANSWER := ElevatedHelperResult(false, false, false, NO_RESPONSE, 0, "")

  /** The request id is the first half of a quarter of the nonce, and never zero. */
  function RequestId(nonce: Nonce): (id: u64)
    ensures id != 0
  {
    ValueLittle(nonce[..8]);
    Powers();
    var value := Value(nonce[..8]);
    if value == 0 then 1 else value
  }

  /** Everything up to the write: create the pipe, start the helper, make sure it is the one that connected. */
  method Connect(m: Machine) returns (connected: bool, result: ElevatedHelperResult)
    requires m.Valid()
    modifies m
    ensures m.Valid() && Quiet(old(m.trace), m.trace) && Since(old(m.At()), m.At())
    ensures !result.requestSent && !result.transportSuccess
    ensures !connected ==> Troubled(old(m.At()), m.At())
  {
    hide Extends, Touches, Sane;
    result := NO_ANSWER;
    var located, locateCode := m.Try();
    if !located {
      return false, result.(errorCode := locateCode);
    }
    var launched, launchCode := m.Try();
    if !launched {
      return false, result.(errorCode := launchCode, userCancelled := launchCode == ERROR_CANCELLED);
    }
    var accepted, acceptCode := m.Try();
    if !accepted {
      return false, result.(errorCode := acceptCode);
    }
    var samePeer, peerCode := m.Try();
    if !samePeer {
      return false, result.(errorCode := ERROR_ACCESS_DENIED);
    }
    var elevated, elevatedCode := m.Try();
    if !elevated {
      return false, result.(errorCode := ERROR_ELEVATION_REQUIRED);
    }
    connected := true;
  }

  /** A well-formed answer to this very request. */
  ghost predicate Answers(request: Request, response: Response) {
    ValidResponse(response) && response.requestId == request.requestId && response.nonce == request.nonce
  }

  /** The request that stands for a call. */
  ghost predicate Asks(request: Request, command: u16, name: string, token: string, timeoutMs: u32) {
    && ValidRequest(request) && request.command == command && request.timeoutMs == timeoutMs
    && TextOf(request.serviceName) == name && TextOf(request.identityToken) == token
  }

  /** What the protocol can carry. */
  ghost predicate Speakable(name: string, token: string, timeoutMs: u32) {
    && 1 <= |name| <= 256 && IsText(BytesOf(name), true) && IsIdentityToken(BytesOf(token))
    && 1000 <= timeoutMs <= 30000
  }

  /** Why a call is not granted: it could not be sent, or what it asks for was hindered. */
  ghost predicate Denied(command: u16, name: string, token: string, timeoutMs: u32, p: Moment, q: Moment) {
    || Hindered(command == STOP_SERVICE_TEMPORARY, name, token, timeoutMs, p, q)
    || !Speakable(name, token, timeoutMs)
    || exists nonce: Nonce :: Heard(p, q, Drawn(nonce)) && !IsNoncePresent(nonce)
  }

  lemma DeniedWider(
      command: u16, name: string, token: string, timeoutMs: u32, p: Moment, q: Moment, r: Moment, s: Moment)
    requires Since(p, q) && Since(q, r) && Since(r, s) && Denied(command, name, token, timeoutMs, q, r)
    ensures Denied(command, name, token, timeoutMs, p, s)
  {
    hide Since, Heard, Hindered, Speakable, IsNoncePresent;
    if Hindered(command == STOP_SERVICE_TEMPORARY, name, token, timeoutMs, q, r) {
      HinderedWider(command == STOP_SERVICE_TEMPORARY, name, token, timeoutMs, p, q, r, s);
    }
    Wider(p, q, r, s);
  }

  lemma TroubleDenies(command: u16, name: string, token: string, timeoutMs: u32, p: Moment, q: Moment, r: Moment)
    requires Since(p, q) && Since(q, r) && Troubled(q, r)
    ensures Denied(command, name, token, timeoutMs, p, r)
  {
    Wider(p, q, r, r);
  }

  /** A request is refused by the encoder only for its texts, its time-out or its nonce. */
  lemma InvalidIsDenied(
      request: Request, command: u16, name: string, token: string, timeoutMs: u32, p: Moment, q: Moment)
    requires !ValidRequest(request) && IsCommand(command) && Heard(p, q, Drawn(request.nonce))
    requires request == Request(RequestId(request.nonce), command, timeoutMs, request.nonce, BytesOf(name),
                                BytesOf(token))
    ensures Denied(command, name, token, timeoutMs, p, q)
  {
    hide IsText, Heard, Hindered, IsIdentityToken, RequestId;
  }

  /**
   * No effect without a trace: if the request was not sent, or the helper answered with a rejection or a failure, then
   * the service was not touched. What is sent says exactly what was asked for, only a well-formed answer to it is
   * believed, and whatever is not granted has its reason. Whatever the elevated side did, it had leave to do.
   */
  method Execute(m: Machine, command: u16, name: string, expectedToken: string, timeoutMs: u32)
    returns (result: ElevatedHelperResult, ghost asked: Request)
    requires m.Valid() && IsCommand(command)
    modifies m
    ensures m.Valid() && DoesAtMost(command, name, old(m.trace), m.trace) && Since(old(m.At()), m.At())
    ensures !result.requestSent ==> !result.transportSuccess && Quiet(old(m.trace), m.trace)
    ensures result.requestSent ==> Asks(asked, command, name, expectedToken, timeoutMs)
    ensures result.transportSuccess ==>
              Answers(asked, result.response) && Truthful(command, name, result.response, old(m.trace), m.trace)
    ensures ActsByLeave(command, name, expectedToken, old(m.At()), m.At())
    ensures !(result.transportSuccess && Grants(command, result.response)) ==>
              Denied(command, name, expectedToken, timeoutMs, old(m.At()), m.At())
    ensures result.transportSuccess && command == START_SERVICE_RESTORE && Grants(command, result.response) ==>
              Seen(old(m.At()), m.At(), name, Running)
    ensures result.transportSuccess && result.response.status == SUCCEEDED ==> Grants(command, result.response)
  {
    hide Extends, Touches, Sane, ValidRequest, ValidResponse, RequestBytes, ResponseBytes, TextOf, RequestId,
         Truthful, DoesAtMost, Answers, ActsByLeave, Denied, Since, Heard, Quiet, Seen, Troubled;
    ghost var before := m.At();
    result, asked := NO_ANSWER, *;
    var created, createCode := m.Try();
    ghost var piped := m.At();
    Unmoved(command, name, expectedToken, before, piped);
    SinceItself(before);
    if !created {
      TroubleDenies(command, name, expectedToken, timeoutMs, before, before, piped);
      result := result.(errorCode := createCode);
      return;
    }
    var nonce := m.DrawNonce();
    ghost var drawn := m.At();
    QuietOn(before.trace, piped.trace, drawn.trace);
    SinceOn(before, piped, drawn);
    Unmoved(command, name, expectedToken, before, drawn);
    SinceItself(drawn);
    Wider(before, piped, drawn, drawn);
    var request := Request(RequestId(nonce), command, timeoutMs, nonce, BytesOf(name), BytesOf(expectedToken));
    var bytes := EncodeRequest(request);
    if bytes.None? {
      InvalidIsDenied(request, command, name, expectedToken, timeoutMs, before, drawn);
      result := result.(errorCode := ERROR_INVALID_DATA);
      return;
    }
    asked := request;
    var connected: bool;
    connected, result := Connect(m);
    ghost var joined := m.At();
    QuietOn(before.trace, drawn.trace, joined.trace);
    SinceOn(before, drawn, joined);
    Unmoved(command, name, expectedToken, before, joined);
    if !connected {
      TroubleDenies(command, name, expectedToken, timeoutMs, before, drawn, joined);
      return;
    }
    // A write that fails was not delivered.
    var written, writeCode := m.Try();
    QuietOn(before.trace, joined.trace, m.trace);
    SinceOn(before, joined, m.At());
    Unmoved(command, name, expectedToken, before, m.At());
    if !written {
      TroubleDenies(command, name, expectedToken, timeoutMs, before, joined, m.At());
      result := result.(errorCode := writeCode);
      return;
    }
    RequestCarriesTexts(request, name, expectedToken);
    result := Exchange(m, request, name, expectedToken, bytes.value, before);
  }

  lemma Unmoved(command: u16, name: string, token: string, p: Moment, q: Moment)
    requires Quiet(p.trace, q.trace)
    ensures DoesAtMost(command, name, p.trace, q.trace) && ActsByLeave(command, name, token, p, q)
  {
    hide Quiet, DoesAtMost, ActsByLeave;
    QuietDoesNothing(command, name, p.trace, q.trace);
    NothingNeedsLeave(command, name, token, p, q);
  }

  lemma RequestCarriesTexts(request: Request, name: string, token: string)
    requires ValidRequest(request) && request.serviceName == BytesOf(name) && request.identityToken == BytesOf(token)
    ensures TextOf(request.serviceName) == name && TextOf(request.identityToken) == token
  {
    NameArrives(name);
    TokenArrives(token);
  }

  /** After the write: the helper runs, and its answer is read, decoded and authenticated. */
  method Exchange(
      m: Machine, request: Request, name: string, ghost token: string, bytes: seq<byte>, ghost before: Moment)
    returns (result: ElevatedHelperResult)
    requires m.Valid() && Quiet(before.trace, m.trace) && Since(before, m.At())
    requires ValidRequest(request) && bytes == RequestBytes(request) && IsCommand(request.command)
    requires TextOf(request.serviceName) == name && TextOf(request.identityToken) == token
    modifies m
    ensures m.Valid() && DoesAtMost(request.command, name, before.trace, m.trace) && result.requestSent
    ensures Since(before, m.At())
    ensures result.transportSuccess ==>
              && Answers(request, result.response)
              && Truthful(request.command, name, result.response, before.trace, m.trace)
    ensures ActsByLeave(request.command, name, token, before, m.At())
    ensures !(result.transportSuccess && Grants(request.command, result.response)) ==>
              Denied(request.command, name, token, request.timeoutMs, before, m.At())
    ensures result.transportSuccess && request.command == START_SERVICE_RESTORE
            && Grants(request.command, result.response) ==>
              Seen(before, m.At(), name, Running)
    ensures result.transportSuccess && result.response.status == SUCCEEDED ==> Grants(request.command, result.response)
  {
    ghost var written := m.At();
    hide Extends, Touches, Sane, ValidRequest, ValidResponse, RequestBytes, ResponseBytes, TextOf, Truthful, Explained,
         Since, Quiet, ActsByLeave, DoesAtMost, Denied, Seen, Troubled;
    result := NO_ANSWER.(requestSent := true);
    var answer: Option<seq<byte>>;
    ghost var meant: Option<Response>;
    answer, meant := HelperMain(m, bytes, request.nonce, request);
    ghost var answered := m.At();
    DoesAtMostSince(request.command, name, before.trace, written.trace, answered.trace);
    SinceOn(before, written, answered);
    SinceItself(answered);
    QuietMeans(before.trace, written.trace);
    ActsByLeaveWider(request.command, name, token, before, written, answered, answered);
    var read, code := m.Try();
    QuietOnThen(request.command, name, token, before, answered, m.At());
    if answer.None? || !read {
      NoAnswerDenies(request, name, token, meant, before, written, answered, m.At());
      return result.(errorCode := code);
    }
    ExplainedWider(request, meant.value, before, written, answered, m.At());
    TruthSince(request.command, name, meant.value, before.trace, written.trace, answered.trace);
    TruthLater(request.command, name, meant.value, before.trace, answered.trace, m.trace);
    var response := DecodeResponse(answer.value);
    assert response == meant by {
      ResponseDecodesExactly(answer.value, meant.value);
      if response.Some? { ResponseDecodesExactly(answer.value, response.value); }
    }
    if response.None? {
      return result.(errorCode := ERROR_INVALID_DATA);
    }
    if response.value.requestId != request.requestId || response.value.nonce != request.nonce {
      return result.(errorCode := ERROR_ACCESS_DENIED);
    }
    AnswerMeans(request, name, token, response.value, before, m.At());
    return result.(transportSuccess := true, response := response.value);
  }

  /** The read changes nothing. */
  lemma QuietOnThen(command: u16, name: string, token: string, p: Moment, q: Moment, r: Moment)
    requires DoesAtMost(command, name, p.trace, q.trace) && ActsByLeave(command, name, token, p, q)
    requires Quiet(q.trace, r.trace) && Since(p, q) && Since(q, r)
    ensures DoesAtMost(command, name, p.trace, r.trace) && ActsByLeave(command, name, token, p, r) && Since(p, r)
  {
    QuietMeans(q.trace, r.trace);
    hide Extends, Touches;
    SinceOn(p, q, r);
    SinceItself(p);
    ActsByLeaveWider(command, name, token, p, p, q, r);
  }

  lemma TruthLater(command: u16, name: string, r: Response, before: Trace, answered: Trace, after: Trace)
    requires Truthful(command, name, r, before, answered) && Quiet(answered, after)
    ensures Truthful(command, name, r, before, after)
  {
    QuietMeans(answered, after);
    if Quiet(before, answered) { QuietOn(before, answered, after); }
    hide Extends;
    if name in Last(after).watch.services && IsRunning(Last(answered), name) {
      RunningStays(Last(answered), Last(after), NOTHING, name);
    }
  }

  lemma NoAnswerDenies(
      request: Request, name: string, token: string, meant: Option<Response>, p: Moment, q: Moment, r: Moment,
      s: Moment)
    requires Since(p, q) && Since(q, r) && Since(r, s) && IsCommand(request.command)
    requires TextOf(request.serviceName) == name && TextOf(request.identityToken) == token
    requires meant.None? ==> Troubled(q, r)
    requires meant.Some? ==> Explained(request, meant.value, q, r)
    requires (meant.Some? && meant.value.status != SUCCEEDED) || meant.None? || Troubled(r, s)
    ensures Denied(request.command, name, token, request.timeoutMs, p, s)
  {
    hide TextOf, Hindered, Since, Seen;
    SinceOn(p, q, r);
    if Troubled(r, s) {
      TroubleDenies(request.command, name, token, request.timeoutMs, p, r, s);
    } else if meant.None? {
      Wider(p, q, r, s);
      SinceOn(q, r, s);
      SinceItself(q);
      Wider(q, q, r, s);
      TroubleDenies(request.command, name, token, request.timeoutMs, p, q, s);
    } else {
      HinderedWider(request.command == STOP_SERVICE_TEMPORARY, name, token, request.timeoutMs, p, q, r, s);
    }
  }

  lemma AnswerMeans(request: Request, name: string, token: string, response: Response, p: Moment, q: Moment)
    requires Explained(request, response, p, q) && IsCommand(request.command)
    requires TextOf(request.serviceName) == name && TextOf(request.identityToken) == token
    ensures !Grants(request.command, response) ==> Denied(request.command, name, token, request.timeoutMs, p, q)
    ensures response.status == SUCCEEDED ==> Grants(request.command, response)
    ensures Grants(request.command, response) && request.command == START_SERVICE_RESTORE ==> Seen(p, q, name, Running)
  {
    hide TextOf, Hindered, Seen, IsText;
  }
}
