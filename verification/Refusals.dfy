/** Why a service is not stopped or started: what the machine answered, and what the policy makes of it. */
module Refusals {
  import opened Types
  import opened Policy
  import opened Worlds
  import opened Moments

  /** What the elevated helper decides by. */
  datatype Grounds = Grounds(config: Config, snapshot: SystemSnapshot, service: ServiceSnapshot)
  {
    function Context(): RuntimeContext { ContextOf(snapshot, config.remoteDebugPorts) }

    predicate AllowStop() { CanStopTemporary(config, service, Context()) }

    predicate AllowRestore() { CanRestore(config, service, Context()) }
  }

  predicate InventoryComplete(s: SystemSnapshot) { s.processComplete && s.tcpComplete }

  /** The service is as it was described between the two moments. */
  ghost predicate Described(p: Moment, q: Moment, service: ServiceSnapshot) {
    && Heard(p, q, Status(service.name, ServiceStatus(service.state, service.pid, service.acceptsStop)))
    && Heard(p, q, Identity(service.name, service.identityToken)) && service.identityVerified
    && Heard(p, q, Titled(service.name, service.displayName))
  }

  /** All grounds were given between the two moments. */
  ghost predicate Given(p: Moment, q: Moment, g: Grounds) {
    && Heard(p, q, Trusted(g.config)) && Heard(p, q, Sampled(g.snapshot)) && InventoryComplete(g.snapshot)
    && Described(p, q, g.service)
  }

  /** The service was found in this state. */
  ghost predicate Seen(p: Moment, q: Moment, name: string, state: ServiceState) {
    exists status :: Heard(p, q, Status(name, status)) && status.state == state
  }

  lemma SeenBy(p: Moment, q: Moment, name: string, status: ServiceStatus)
    requires Heard(p, q, Status(name, status))
    ensures Seen(p, q, name, status.state)
  {
  }

  lemma SeenWider(p: Moment, q: Moment, r: Moment, s: Moment, name: string, state: ServiceState)
    requires Since(p, q) && Since(q, r) && Since(r, s) && Seen(q, r, name, state)
    ensures Seen(p, s, name, state)
  {
    hide Heard, Since;
    Wider(p, q, r, s);
  }

  datatype Refusal =
    | Nameless
    | OtherService(token: string)
    | AgainstPolicy(grounds: Grounds)
    | UnknownInventory(snapshot: SystemSnapshot)
    | WrongState(status: ServiceStatus)
    | Restarted(first: ServiceStatus, second: ServiceStatus)
    | StillNeeded
    | TooSlow(status: ServiceStatus)

  /** States from which a service can get to run. */
  predicate CanComeUp(state: ServiceState) {
    state == Running || state == Stopped || state == StartPending || state == StopPending
  }

  /** `why` is a reason not to stop, or else not to start, the service `name` of identity `token`. */
  ghost predicate Refuses(
      why: Refusal, stop: bool, name: string, token: string, timeoutMs: nat, p: Moment, q: Moment)
  {
    match why
    case Nameless => name == ""
    case OtherService(other) => other != token && Heard(p, q, Identity(name, other))
    case AgainstPolicy(g) =>
      && Given(p, q, g) && g.service.name == name && g.service.identityToken == token
      && if stop then !g.AllowStop() else g.service.state != Running && !g.AllowRestore()
    case UnknownInventory(s) => Heard(p, q, Sampled(s)) && !InventoryComplete(s)
    case WrongState(status) =>
      && Heard(p, q, Status(name, status))
      && if stop then status.state != Running || !status.acceptsStop || status.pid == 0 else !CanComeUp(status.state)
    case Restarted(first, second) =>
      stop && Heard(p, q, Status(name, first)) && Heard(p, q, Status(name, second)) && first.pid != second.pid
    case StillNeeded => stop && Heard(p, q, Dependents(name, true))
    case TooSlow(status) =>
      && q.clock >= p.clock + timeoutMs && Heard(p, q, Status(name, status))
      && status.state != if stop then Stopped else Running
  }

  /** A call failed between the two moments, or there was a reason to refuse. */
  ghost predicate Hindered(stop: bool, name: string, token: string, timeoutMs: nat, p: Moment, q: Moment) {
    Troubled(p, q) || exists why :: Refuses(why, stop, name, token, timeoutMs, p, q)
  }

  lemma HinderedBy(why: Refusal, stop: bool, name: string, token: string, timeoutMs: nat, p: Moment, q: Moment)
    requires Refuses(why, stop, name, token, timeoutMs, p, q)
    ensures Hindered(stop, name, token, timeoutMs, p, q)
  {
  }

  lemma TroubleHinders(stop: bool, name: string, token: string, timeoutMs: nat, p: Moment, q: Moment)
    requires Troubled(p, q)
    ensures Hindered(stop, name, token, timeoutMs, p, q)
  {
  }

  lemma DescribedWider(p: Moment, q: Moment, r: Moment, s: Moment, service: ServiceSnapshot)
    requires Since(p, q) && Since(q, r) && Since(r, s) && Described(q, r, service)
    ensures Described(p, s, service)
  {
    hide Since, Heard;
    Wider(p, q, r, s);
  }

  lemma RefusesWider(
      why: Refusal, stop: bool, name: string, token: string, timeoutMs: nat, p: Moment, q: Moment, r: Moment, s: Moment)
    requires Since(p, q) && Since(q, r) && Since(r, s) && Refuses(why, stop, name, token, timeoutMs, q, r)
    ensures Refuses(why, stop, name, token, timeoutMs, p, s)
  {
    Wider(p, q, r, s);
    hide Heard, InventoryComplete;
  }

  lemma HinderedWider(
      stop: bool, name: string, token: string, timeoutMs: nat, p: Moment, q: Moment, r: Moment, s: Moment)
    requires Since(p, q) && Since(q, r) && Since(r, s) && Hindered(stop, name, token, timeoutMs, q, r)
    ensures Hindered(stop, name, token, timeoutMs, p, s)
  {
    if Troubled(q, r) {
      Wider(p, q, r, s);
    } else {
      var why :| Refuses(why, stop, name, token, timeoutMs, q, r);
      RefusesWider(why, stop, name, token, timeoutMs, p, q, r, s);
    }
  }

  // ----- Leave to act -----

  /** No service of the fixed lists, nothing that looks like protection, no remote session; listed and optimizable. */
  predicate FairTarget(g: Grounds) {
    var name := ToLowerAscii(g.service.name);
    && !IsSystemService(name) && !IsNetworkService(name) && !IsSecurityService(name)
    && !IsRemoteOrCaptureService(name) && !IsDeviceService(name)
    && name in g.config.serviceRules && g.config.serviceRules[name].protection == Optimizable
    && EligibleClass(g.config.serviceRules[name].serviceClass)
    && !ContainsBlockedKeyword(g.service)
    && name !in g.config.profile.alwaysProtectServices && name in g.config.profile.allowServiceStop
    && (forall t | t in g.snapshot.sessions && IsRemoteSession(t, g.config.remoteDebugPorts) ::
          t.pid != g.service.pid)
    && (CaptureActive(g.snapshot.processes) ==>
          forall p | p in g.snapshot.processes && p.classification == ProcessClass.PacketCapture ::
            p.pid != g.service.pid)
  }

  /** What a trusted configuration and a complete inventory let be stopped, or else started again. */
  predicate FairControl(stop: bool, g: Grounds) {
    FairTarget(g) && (stop ==> g.service.state == Running && g.service.acceptsStop)
  }

  lemma AllowedIsFair(stop: bool, g: Grounds)
    requires g.service.identityVerified && g.service.identityToken != ""
    ensures (if stop then g.AllowStop() else g.AllowRestore()) <==> FairControl(stop, g)
  {
    hide ContainsBlockedKeyword;
  }

  /** The elevated side had leave to control this very service: for a start, also because it ran already. */
  ghost predicate Leave(stop: bool, name: string, token: string, p: Moment, q: Moment) {
    exists g ::
      && Given(p, q, g) && g.service.name == name && g.service.identityToken == token
      && FairControl(stop, g)
  }

  lemma LeaveBy(stop: bool, name: string, token: string, p: Moment, q: Moment, g: Grounds)
    requires Given(p, q, g) && g.service.name == name && g.service.identityToken == token && FairControl(stop, g)
    ensures Leave(stop, name, token, p, q)
  {
  }

  lemma GivenWider(p: Moment, q: Moment, r: Moment, s: Moment, g: Grounds)
    requires Since(p, q) && Since(q, r) && Since(r, s) && Given(q, r, g)
    ensures Given(p, s, g)
  {
    hide Since, Heard, Described;
    Wider(p, q, r, s);
    DescribedWider(p, q, r, s, g.service);
  }

  lemma LeaveWider(stop: bool, name: string, token: string, p: Moment, q: Moment, r: Moment, s: Moment)
    requires Since(p, q) && Since(q, r) && Since(r, s) && Leave(stop, name, token, q, r)
    ensures Leave(stop, name, token, p, s)
  {
    hide FairControl, Given;
    var g :| Given(q, r, g) && g.service.name == name && g.service.identityToken == token && FairControl(stop, g);
    GivenWider(p, q, r, s, g);
  }
}
