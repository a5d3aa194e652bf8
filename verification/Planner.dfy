/** OptimizationPlanner and SafetyValidator: two decisions about the same actions, taken independently. */
module Planner {
  import opened Types
  import opened Policy

  // ----- Priorities -----

  function PriorityRank(priority: u32): int {
    if priority == IDLE_PRIORITY then 0
    else if priority == BELOW_NORMAL_PRIORITY then 1
    else if priority == NORMAL_PRIORITY then 2
    else if priority == ABOVE_NORMAL_PRIORITY then 3
    else if priority == HIGH_PRIORITY then 4
    else if priority == REALTIME_PRIORITY then 5
    else 2
  }

  function PriorityFromName(value: string): u32 {
    var lower := ToLowerAscii(value);
    if lower == "idle" then IDLE_PRIORITY
    else if lower == "below_normal" then BELOW_NORMAL_PRIORITY
    else if lower == "normal" then NORMAL_PRIORITY
    else if lower == "above_normal" then ABOVE_NORMAL_PRIORITY
    else if lower == "high" then HIGH_PRIORITY
    else if lower == "realtime" then REALTIME_PRIORITY
    else 0
  }

  /** The priorities a planned change may aim for and still pass validation. */
  predicate SafeTarget(priority: u32) {
    priority == BELOW_NORMAL_PRIORITY || priority == NORMAL_PRIORITY || priority == ABOVE_NORMAL_PRIORITY
  }

  // ----- What the planner proposes for one process or service -----

  datatype Proposal = Nothing | Refused(reason: string) | Proposed(action: OptimizationAction)

  function Digits(n: nat): string {
    if n < 10 then ['0' + n as char] else Digits(n / 10) + ['0' + (n % 10) as char]
  }

  function ActionFor(p: ProcessSnapshot, id: string, kind: ActionType, risk: ActionRisk, target: u32, timeout: u32,
                     reason: string): OptimizationAction {
    OptimizationAction(
      id + Digits(p.pid), kind, risk, p.pid, p.startTime, p.name, if kind.SetPriorityClass? then p.priority else 0,
      target, timeout, "", "", ServiceState.Unknown, false, reason)
  }

  predicate IsRaiseCandidate(config: Config, p: ProcessSnapshot) {
    ToLowerAscii(p.name) in config.profile.foregroundPriority
    && (ToLowerAscii(p.name) == "codex.exe" || p.hasVisibleWindow || p.isForeground)
  }

  function ProposeRaise(config: Config, context: RuntimeContext, p: ProcessSnapshot): Proposal
    requires IsRaiseCandidate(config, p)
  {
    var target := PriorityFromName(config.profile.foregroundPriority[ToLowerAscii(p.name)]);
    if target == 0 then Refused(p.name + ": unknown priority value")
    else if p.startTime == 0 || p.priority == 0 then
      Refused(p.name + ": process identity or priority is unavailable")
    else if target == p.priority then Nothing
    else if CanChangePriority(config, p, context, true) then
      Proposed(ActionFor(p, "priority-up-", SetPriorityClass, Safe, target, 2000,
                         "Coding profile foreground priority"))
    else Refused(p.name + ": protection policy rejected priority raise")
  }

  function ProposeClose(config: Config, context: RuntimeContext, s: SystemSnapshot, p: ProcessSnapshot): Proposal {
    if !s.processComplete || !s.tcpComplete then Refused(p.name + ": protection inventory is incomplete")
    else if p.startTime == 0 then Refused(p.name + ": process identity is unavailable")
    else if p.isForeground then Refused(p.name + ": foreground process is not auto-closed")
    else if !p.hasVisibleWindow then Refused(p.name + ": no visible top-level window to close")
    else if CanGracefullyClose(config, p, context) then
      Proposed(ActionFor(p, "graceful-close-", GracefulCloseProcess, ActionRisk.Low, 0, 2000,
                         "Explicit coding profile graceful close"))
    else Refused(p.name + ": protection policy rejected graceful close")
  }

  function ProposeLower(config: Config, context: RuntimeContext, s: SystemSnapshot, p: ProcessSnapshot): Proposal {
    if !s.processComplete || !s.tcpComplete then Refused(p.name + ": protection inventory is incomplete")
    else if p.startTime == 0 || p.priority == 0 then
      Refused(p.name + ": process identity or priority is unavailable")
    else if CanChangePriority(config, p, context, false) then
      Proposed(ActionFor(p, "priority-down-", SetPriorityClass, Safe, BELOW_NORMAL_PRIORITY, 2000,
                         "Explicit coding profile background priority"))
    else Refused(p.name + ": protection policy rejected priority decrease")
  }

  function ProposeForProcess(config: Config, context: RuntimeContext, s: SystemSnapshot, p: ProcessSnapshot): Proposal {
    var name := ToLowerAscii(p.name);
    if IsRaiseCandidate(config, p) then ProposeRaise(config, context, p)
    else if name in config.profile.allowGracefulClose then ProposeClose(config, context, s, p)
    else if name in config.profile.allowPriorityDown && p.priority != BELOW_NORMAL_PRIORITY then
      ProposeLower(config, context, s, p)
    else Nothing
  }

  function ProposeForService(config: Config, context: RuntimeContext, service: ServiceSnapshot): Proposal {
    var name := ToLowerAscii(service.name);
    if name !in config.profile.allowServiceStop then Nothing
    else if CanStopTemporary(config, service, context) then
      Proposed(OptimizationAction(
                 "service-stop-" + name, StopServiceTemporary, ActionRisk.Medium, 0, 0, "", 0, 0, 15000, service.name,
                 service.identityToken, service.state, false, "Explicit coding profile temporary service stop"))
    else Refused(service.name + ": protection policy rejected temporary stop")
  }

  function Actions(proposals: seq<Proposal>): seq<OptimizationAction> {
    if proposals == [] then []
    else
      Actions(proposals[..|proposals| - 1])
      + match proposals[|proposals| - 1] case Proposed(action) => [action] case _ => []
  }

  function Refusals(proposals: seq<Proposal>): seq<string> {
    if proposals == [] then []
    else
      Refusals(proposals[..|proposals| - 1])
      + match proposals[|proposals| - 1] case Refused(reason) => [reason] case _ => []
  }

  function ProcessProposals(config: Config, s: SystemSnapshot): seq<Proposal> {
    var context := ContextOf(s, config.remoteDebugPorts);
    seq(|s.processes|, i requires 0 <= i < |s.processes| => ProposeForProcess(config, context, s, s.processes[i]))
  }

  function ServiceProposals(config: Config, s: SystemSnapshot): seq<Proposal> {
    var context := ContextOf(s, config.remoteDebugPorts);
    seq(|s.services|, i requires 0 <= i < |s.services| => ProposeForService(config, context, s.services[i]))
  }

  function PlanOf(config: Config, s: SystemSnapshot): seq<OptimizationAction> {
    Actions(ProcessProposals(config, s)) + Actions(ServiceProposals(config, s))
  }

  datatype OptimizationPlan = OptimizationPlan(actions: seq<OptimizationAction>, rejected: seq<string>)

  lemma CollectStep(proposals: seq<Proposal>, i: nat)
    requires i < |proposals|
    ensures Actions(proposals[..i + 1])
            == Actions(proposals[..i]) + match proposals[i] case Proposed(action) => [action] case _ => []
    ensures Refusals(proposals[..i + 1])
            == Refusals(proposals[..i]) + match proposals[i] case Refused(reason) => [reason] case _ => []
  {
    assert proposals[..i + 1][..i] == proposals[..i];
  }

  /** The loop over the processes. */
  method PlanProcesses(config: Config, context: RuntimeContext, s: SystemSnapshot)
    returns (actions: seq<OptimizationAction>, rejected: seq<string>)
    requires context == ContextOf(s, config.remoteDebugPorts)
    ensures actions == Actions(ProcessProposals(config, s)) && rejected == Refusals(ProcessProposals(config, s))
  {
    actions, rejected := [], [];
    ghost var proposals := ProcessProposals(config, s);
    for i := 0 to |s.processes|
      invariant actions == Actions(proposals[..i]) && rejected == Refusals(proposals[..i])
    {
      var proposal := ProposeForProcess(config, context, s, s.processes[i]);
      assert proposals[i] == proposal;
      hide ProposeForProcess, ProcessProposals, Actions, Refusals, ContextOf;
      CollectStep(proposals, i);
      match proposal {
        case Proposed(action) => actions := actions + [action];
        case Refused(reason) => rejected := rejected + [reason];
        case Nothing =>
      }
    }
    assert proposals[..|s.processes|] == proposals;
  }

  /** The loop over the services. */
  method PlanServices(config: Config, context: RuntimeContext, s: SystemSnapshot)
    returns (actions: seq<OptimizationAction>, rejected: seq<string>)
    requires context == ContextOf(s, config.remoteDebugPorts)
    ensures actions == Actions(ServiceProposals(config, s)) && rejected == Refusals(ServiceProposals(config, s))
  {
    actions, rejected := [], [];
    ghost var proposals := ServiceProposals(config, s);
    for i := 0 to |s.services|
      invariant actions == Actions(proposals[..i]) && rejected == Refusals(proposals[..i])
    {
      var proposal := ProposeForService(config, context, s.services[i]);
      assert proposals[i] == proposal;
      hide ProposeForService, ServiceProposals, Actions, Refusals, ContextOf;
      CollectStep(proposals, i);
      match proposal {
        case Proposed(action) => actions := actions + [action];
        case Refused(reason) => rejected := rejected + [reason];
        case Nothing =>
      }
    }
    assert proposals[..|s.services|] == proposals;
  }

  /** OptimizationPlanner::Create. */
  method Create(config: Config, s: SystemSnapshot) returns (plan: OptimizationPlan)
    ensures plan.actions == PlanOf(config, s)
    ensures plan.rejected == Refusals(ProcessProposals(config, s)) + Refusals(ServiceProposals(config, s))
  {
    var context := BuildRuntimeContext(s, config.remoteDebugPorts);
    var actions, rejected := PlanProcesses(config, context, s);
    var serviceActions, serviceRejected := PlanServices(config, context, s);
    return OptimizationPlan(actions + serviceActions, rejected + serviceRejected);
  }

  // ----- SafetyValidator -----

  /** The first process with this pid. */
  function FindProcess(processes: seq<ProcessSnapshot>, pid: u32): Option<ProcessSnapshot> {
    if processes == [] then None
    else if processes[0].pid == pid then Some(processes[0])
    else FindProcess(processes[1..], pid)
  }

  function FindService(services: seq<ServiceSnapshot>, name: string): Option<ServiceSnapshot> {
    if services == [] then None
    else if ToLowerAscii(services[0].name) == ToLowerAscii(name) then Some(services[0])
    else FindService(services[1..], name)
  }

  predicate ValidateStop(config: Config, a: OptimizationAction, s: SystemSnapshot) {
    && a.risk == ActionRisk.Medium && a.explicitConfirmation && 1000 <= a.timeoutMs <= 30000
    && s.processComplete && s.tcpComplete && s.serviceComplete
    && var service := FindService(s.services, a.serviceName);
       && service.Some?
       && service.value.identityVerified && service.value.identityToken == a.serviceIdentity
       && CanStopTemporary(config, service.value, ContextOf(s, config.remoteDebugPorts))
  }

  predicate ValidateProcess(config: Config, a: OptimizationAction, s: SystemSnapshot, p: ProcessSnapshot) {
    var context := ContextOf(s, config.remoteDebugPorts);
    && p.startTime == a.startTime && ToLowerAscii(p.name) == ToLowerAscii(a.processName) && a.startTime != 0
    && match a.kind
       case SetPriorityClass =>
         var raise := PriorityRank(a.targetPriority) > PriorityRank(p.priority);
         && a.risk == Safe
         && a.targetPriority !in {HIGH_PRIORITY, REALTIME_PRIORITY, IDLE_PRIORITY, 0}
         && (raise || (s.processComplete && s.tcpComplete))
         && CanChangePriority(config, p, context, raise)
       case GracefulCloseProcess =>
         && a.risk == ActionRisk.Low && 100 <= a.timeoutMs <= 5000
         && s.processComplete && s.tcpComplete
         && p.hasVisibleWindow && !p.isForeground
         && CanGracefullyClose(config, p, context)
       case _ => false
  }

  /** SafetyValidator::Validate. */
  predicate Validate(config: Config, a: OptimizationAction, s: SystemSnapshot) {
    if a.kind.StopServiceTemporary? then ValidateStop(config, a, s)
    else
      var p := FindProcess(s.processes, a.pid);
      p.Some? && ValidateProcess(config, a, s, p.value)
  }

  // ----- Where planned actions come from -----

  predicate DistinctPids(processes: seq<ProcessSnapshot>) {
    forall i, j | 0 <= i < j < |processes| :: processes[i].pid != processes[j].pid
  }

  predicate DistinctServices(services: seq<ServiceSnapshot>) {
    forall i, j | 0 <= i < j < |services| :: ToLowerAscii(services[i].name) != ToLowerAscii(services[j].name)
  }

  /** Two actions on one target would make the order of undoing them matter. */
  predicate SameTarget(a: OptimizationAction, b: OptimizationAction) {
    if a.kind.StopServiceTemporary? || b.kind.StopServiceTemporary? then
      a.kind == b.kind && ToLowerAscii(a.serviceName) == ToLowerAscii(b.serviceName)
    else a.pid == b.pid
  }

  predicate DistinctTargets(actions: seq<OptimizationAction>) {
    forall i, j | 0 <= i < j < |actions| :: !SameTarget(actions[i], actions[j])
  }

  /** `places` are the indices of the proposals that became actions, in order. */
  ghost predicate ComeFrom(actions: seq<OptimizationAction>, proposals: seq<Proposal>, places: seq<nat>) {
    && |places| == |actions|
    && (forall k | 0 <= k < |places| :: places[k] < |proposals| && proposals[places[k]] == Proposed(actions[k]))
    && (forall k, l | 0 <= k < l < |places| :: places[k] < places[l])
  }

  /** Every action of a plan was proposed for the entry at some place of the inventory, in inventory order. */
  lemma {:induction false} ActionsKeepOrder(proposals: seq<Proposal>) returns (places: seq<nat>)
    ensures ComeFrom(Actions(proposals), proposals, places)
  {
    if proposals == [] {
      places := [];
    } else {
      var init, last := proposals[..|proposals| - 1], proposals[|proposals| - 1];
      var before := ActionsKeepOrder(init);
      hide Actions;
      places := before;
      if last.Proposed? {
        places := before + [|init|];
        assert Actions(proposals) == Actions(init) + [last.action] by { ActionsLast(proposals); }
      } else {
        assert Actions(proposals) == Actions(init) by { ActionsLast(proposals); }
      }
    }
  }

  lemma ActionsLast(proposals: seq<Proposal>)
    requires proposals != []
    ensures var init, last := proposals[..|proposals| - 1], proposals[|proposals| - 1];
            Actions(proposals) == Actions(init) + if last.Proposed? then [last.action] else []
  {
  }

  lemma ProposedForProcess(config: Config, context: RuntimeContext, s: SystemSnapshot, p: ProcessSnapshot)
    requires ProposeForProcess(config, context, s, p).Proposed?
    ensures var a := ProposeForProcess(config, context, s, p).action;
            && a.pid == p.pid && a.startTime == p.startTime && a.startTime != 0 && a.processName == p.name
            && (a.kind.SetPriorityClass? || a.kind.GracefulCloseProcess?)
  {
    hide ToLowerAscii, PriorityFromName, CanChangePriority, CanGracefullyClose, Digits;
  }

  /** The planner never emits two actions for one target. */
  lemma PlanHasDistinctTargets(config: Config, s: SystemSnapshot)
    requires DistinctPids(s.processes) && DistinctServices(s.services)
    ensures DistinctTargets(PlanOf(config, s))
  {
    var context := ContextOf(s, config.remoteDebugPorts);
    var processes, services := Actions(ProcessProposals(config, s)), Actions(ServiceProposals(config, s));
    var at := ActionsKeepOrder(ProcessProposals(config, s));
    var from := ActionsKeepOrder(ServiceProposals(config, s));
    hide ProposeForProcess, Actions, ContextOf;
    var plan := processes + services;
    forall k | 0 <= k < |processes|
      ensures processes[k].pid == s.processes[at[k]].pid && !processes[k].kind.StopServiceTemporary?
    {
      ProposedForProcess(config, context, s, s.processes[at[k]]);
    }
    forall k | 0 <= k < |services|
      ensures services[k].serviceName == s.services[from[k]].name && services[k].kind.StopServiceTemporary?
    {
      assert ProposeForService(config, context, s.services[from[k]]) == Proposed(services[k]);
    }
    forall i, j | 0 <= i < j < |plan| ensures !SameTarget(plan[i], plan[j]) {
      if j < |processes| {
        assert at[i] < at[j];
      } else if i >= |processes| {
        assert from[i - |processes|] < from[j - |processes|];
      }
    }
  }

  // ----- The two agree -----

  lemma {:induction false} FindsProcess(processes: seq<ProcessSnapshot>, i: nat)
    requires i < |processes| && DistinctPids(processes)
    ensures FindProcess(processes, processes[i].pid) == Some(processes[i])
  {
    if i > 0 {
      FindsProcess(processes[1..], i - 1);
      assert processes[0].pid != processes[i].pid;
    }
  }

  lemma {:induction false} FindsService(services: seq<ServiceSnapshot>, i: nat)
    requires i < |services| && DistinctServices(services)
    ensures FindService(services, services[i].name) == Some(services[i])
  {
    if i > 0 {
      FindsService(services[1..], i - 1);
      assert ToLowerAscii(services[0].name) != ToLowerAscii(services[i].name);
    }
  }

  predicate Complete(s: SystemSnapshot) { s.processComplete && s.tcpComplete && s.serviceComplete }

  /** The planner took the action for a raise, and it raises; or for a decrease, and it does not raise. */
  predicate DirectionAsPlanned(config: Config, a: OptimizationAction, p: ProcessSnapshot) {
    PriorityRank(a.targetPriority) > PriorityRank(p.priority) <==> IsRaiseCandidate(config, p)
  }

  lemma RaiseAgreement(config: Config, s: SystemSnapshot, i: nat, a: OptimizationAction)
    requires i < |s.processes| && DistinctPids(s.processes) && Complete(s) && IsRaiseCandidate(config, s.processes[i])
    requires ProposeRaise(config, ContextOf(s, config.remoteDebugPorts), s.processes[i]) == Proposed(a)
    ensures Validate(config, a, s) <==> SafeTarget(a.targetPriority) && DirectionAsPlanned(config, a, s.processes[i])
  {
    var p := s.processes[i];
    var context := ContextOf(s, config.remoteDebugPorts);
    if p.classification.Development? { DevelopmentIsProtected(config, p, context); }
    hide ContextOf, Protection, PriorityFromName;
    FindsProcess(s.processes, i);
    PlannedTarget(config, p);
  }

  lemma LowerAgreement(config: Config, s: SystemSnapshot, i: nat, a: OptimizationAction)
    requires i < |s.processes| && DistinctPids(s.processes) && Complete(s) && !IsRaiseCandidate(config, s.processes[i])
    requires ProposeLower(config, ContextOf(s, config.remoteDebugPorts), s, s.processes[i]) == Proposed(a)
    ensures Validate(config, a, s) <==> SafeTarget(a.targetPriority) && DirectionAsPlanned(config, a, s.processes[i])
  {
    hide ContextOf, Protection, IsRaiseCandidate, ToLowerAscii, Digits;
    var p := s.processes[i];
    var context := ContextOf(s, config.remoteDebugPorts);
    if p.classification.Development? { DevelopmentIsProtected(config, p, context); }
    FindsProcess(s.processes, i);
  }

  lemma PriorityAgreement(config: Config, s: SystemSnapshot, i: nat, a: OptimizationAction)
    requires i < |s.processes| && DistinctPids(s.processes) && Complete(s)
    requires ProposeForProcess(config, ContextOf(s, config.remoteDebugPorts), s, s.processes[i]) == Proposed(a)
    requires a.kind.SetPriorityClass?
    ensures Validate(config, a, s) <==> SafeTarget(a.targetPriority) && DirectionAsPlanned(config, a, s.processes[i])
  {
    hide ContextOf, Validate, SafeTarget, DirectionAsPlanned, IsRaiseCandidate, CanChangePriority, CanGracefullyClose;
    if IsRaiseCandidate(config, s.processes[i]) {
      RaiseAgreement(config, s, i, a);
    } else {
      LowerAgreement(config, s, i, a);
    }
  }

  /** A planned target is one of the six named priorities. */
  lemma PlannedTarget(config: Config, p: ProcessSnapshot)
    ensures IsRaiseCandidate(config, p) ==>
              PriorityFromName(config.profile.foregroundPriority[ToLowerAscii(p.name)]) in
              {0, IDLE_PRIORITY, BELOW_NORMAL_PRIORITY, NORMAL_PRIORITY, ABOVE_NORMAL_PRIORITY, HIGH_PRIORITY,
               REALTIME_PRIORITY}
  {
  }

  lemma DevelopmentIsProtected(config: Config, p: ProcessSnapshot, context: RuntimeContext)
    requires p.classification.Development?
    ensures IsProtected(config, p, context)
  {
  }

  lemma CloseAgreement(config: Config, s: SystemSnapshot, i: nat, a: OptimizationAction)
    requires i < |s.processes| && DistinctPids(s.processes)
    requires ProposeForProcess(config, ContextOf(s, config.remoteDebugPorts), s, s.processes[i]) == Proposed(a)
    requires a.kind.GracefulCloseProcess?
    ensures Validate(config, a, s)
  {
    hide ContextOf, CanGracefullyClose, CanChangePriority, ToLowerAscii, Digits, PriorityFromName, PriorityRank;
    FindsProcess(s.processes, i);
  }

  lemma StopAgreement(config: Config, s: SystemSnapshot, i: nat, a: OptimizationAction)
    requires i < |s.services| && DistinctServices(s.services) && Complete(s)
    requires ProposeForService(config, ContextOf(s, config.remoteDebugPorts), s.services[i]) == Proposed(a)
    ensures Validate(config, a.(explicitConfirmation := true), s) && !Validate(config, a, s)
  {
    hide ContextOf, ServiceProtection, ServiceRuleFor;
    FindsService(s.services, i);
  }

  /**
   * Planner and validator agree on one snapshot: every planned close and every confirmed planned stop validates; a
   * planned priority change validates exactly when its target is safe and its direction is the one it was planned for.
   */
  lemma PlannerAndValidatorAgree(config: Config, s: SystemSnapshot, k: nat)
    requires DistinctPids(s.processes) && DistinctServices(s.services) && Complete(s)
    requires k < |PlanOf(config, s)|
    ensures var a := PlanOf(config, s)[k];
            match a.kind
            case GracefulCloseProcess => Validate(config, a, s)
            case StopServiceTemporary => Validate(config, a.(explicitConfirmation := true), s)
            case SetPriorityClass =>
              var p := FindProcess(s.processes, a.pid);
              p.Some? &&
              (Validate(config, a, s) <==> SafeTarget(a.targetPriority) && DirectionAsPlanned(config, a, p.value))
            case _ => false
  {
    var processes := Actions(ProcessProposals(config, s));
    var at := ActionsKeepOrder(ProcessProposals(config, s));
    var from := ActionsKeepOrder(ServiceProposals(config, s));
    hide Validate, ProposeForProcess, Actions, ContextOf, DirectionAsPlanned, ProposeForService;
    var a := PlanOf(config, s)[k];
    if k < |processes| {
      var i := at[k];
      ProposedForProcess(config, ContextOf(s, config.remoteDebugPorts), s, s.processes[i]);
      FindsProcess(s.processes, i);
      if a.kind.SetPriorityClass? {
        PriorityAgreement(config, s, i, a);
      } else {
        CloseAgreement(config, s, i, a);
      }
    } else {
      var i := from[k - |processes|];
      ProposedForService(config, ContextOf(s, config.remoteDebugPorts), s.services[i]);
      StopAgreement(config, s, i, a);
    }
  }

  lemma ProposedForService(config: Config, context: RuntimeContext, service: ServiceSnapshot)
    requires ProposeForService(config, context, service).Proposed?
    ensures var a := ProposeForService(config, context, service).action;
            && a.kind.StopServiceTemporary? && a.serviceName == service.name
            && a.sourceServiceState == Running && a.pid == 0 && a.startTime == 0 && a.timeoutMs == 15000
            && a.risk == ActionRisk.Medium && a.serviceIdentity == service.identityToken
  {
  }

  // ----- No configuration weakens protection -----

  /** Processes the collector reports are classified by the rules. */
  predicate Classified(config: Config, s: SystemSnapshot) {
    forall p | p in s.processes :: p.classification == RuleFor(config, p.name).processClass
  }

  /** What must never be closed nor slowed down, whatever the configuration says. */
  predicate Untouchable(config: Config, s: SystemSnapshot, p: ProcessSnapshot) {
    var name := ToLowerAscii(p.name);
    || p.pid <= 4
    || IsSystemProcess(name) || IsSecurityProcess(name) || WorkloadOf(name).Some?
    || name in config.profile.alwaysProtect
    || p.classification.System? || p.classification.Security? || IsWorkloadOrUnknown(p.classification)
    || (exists t | t in s.sessions ::
          t.pid == p.pid && t.state == Established
          && (t.remotePort == 22 || t.remotePort == 23 || t.remotePort in config.remoteDebugPorts))
    || (p.classification.PacketCapture? && CaptureActive(s.processes))
  }

  lemma UntouchableIsProtected(config: Config, s: SystemSnapshot, p: ProcessSnapshot)
    requires p in s.processes && Classified(config, s) && Untouchable(config, s, p)
    ensures IsProtected(config, p, ContextOf(s, config.remoteDebugPorts))
  {
    var name := ToLowerAscii(p.name);
    assert p.classification == RuleFor(config, p.name).processClass;
    WorkloadsAreWorkloads(name);
  }

  lemma WorkloadsAreWorkloads(name: string)
    ensures WorkloadOf(name).Some? ==> IsWorkloadOrUnknown(WorkloadOf(name).value)
  {
  }

  lemma {:induction false} FoundIsMember(processes: seq<ProcessSnapshot>, pid: u32)
    requires FindProcess(processes, pid).Some?
    ensures FindProcess(processes, pid).value in processes && FindProcess(processes, pid).value.pid == pid
  {
    if processes[0].pid != pid { FoundIsMember(processes[1..], pid); }
  }

  /**
   * Whatever the configuration: a validated close or non-raising priority change never targets an untouchable process,
   * and a raise only ever targets a Development process listed for it.
   */
  lemma AcceptedTargetsAreFair(config: Config, s: SystemSnapshot, a: OptimizationAction)
    requires Classified(config, s) && !a.kind.StopServiceTemporary? && Validate(config, a, s)
    ensures var p := FindProcess(s.processes, a.pid).value;
            var raise := PriorityRank(a.targetPriority) > PriorityRank(p.priority);
            if a.kind.SetPriorityClass? && raise then
              && p.classification.Development? && ToLowerAscii(p.name) in config.profile.foregroundPriority
              && ToLowerAscii(p.name) !in config.profile.alwaysProtect
              && !IsSystemProcess(ToLowerAscii(p.name)) && !IsSecurityProcess(ToLowerAscii(p.name))
            else !Untouchable(config, s, p)
  {
    hide ContextOf, Untouchable, CaptureActive, WorkloadOf;
    FoundIsMember(s.processes, a.pid);
    var p := FindProcess(s.processes, a.pid).value;
    assert p.classification == RuleFor(config, p.name).processClass;
    if Untouchable(config, s, p) {
      UntouchableIsProtected(config, s, p);
    }
  }

  /** A target that was both planned and validated is one of three priorities. */
  lemma PlannedTargetsAreSafe(config: Config, planned: SystemSnapshot, s: SystemSnapshot, k: nat)
    requires k < |PlanOf(config, planned)| && PlanOf(config, planned)[k].kind.SetPriorityClass?
    requires Validate(config, PlanOf(config, planned)[k], s)
    ensures SafeTarget(PlanOf(config, planned)[k].targetPriority)
  {
    var processes := Actions(ProcessProposals(config, planned));
    var at := ActionsKeepOrder(ProcessProposals(config, planned));
    var from := ActionsKeepOrder(ServiceProposals(config, planned));
    hide Actions, ContextOf, ProposeForService, ProposeForProcess, Validate, SafeTarget;
    if k < |processes| {
      var context := ContextOf(planned, config.remoteDebugPorts);
      AllowedTargetIsSafe(config, context, planned, planned.processes[at[k]], s);
    } else {
      ProposedForService(config, ContextOf(planned, config.remoteDebugPorts), planned.services[from[k - |processes|]]);
    }
  }

  lemma AllowedTargetIsSafe(
      config: Config, context: RuntimeContext, planned: SystemSnapshot, p: ProcessSnapshot, s: SystemSnapshot)
    requires ProposeForProcess(config, context, planned, p).Proposed?
    requires ProposeForProcess(config, context, planned, p).action.kind.SetPriorityClass?
    requires Validate(config, ProposeForProcess(config, context, planned, p).action, s)
    ensures SafeTarget(ProposeForProcess(config, context, planned, p).action.targetPriority)
  {
    PlannedTarget(config, p);
    hide ContextOf, CanChangePriority, CanGracefullyClose, PriorityRank, ToLowerAscii, Digits, PriorityFromName;
  }

  /** Validated stops: never a service of the fixed lists, nor one that looks like protection or remote access. */
  lemma AcceptedStopsAreFair(config: Config, s: SystemSnapshot, a: OptimizationAction)
    requires a.kind.StopServiceTemporary? && Validate(config, a, s)
    ensures var service := FindService(s.services, a.serviceName).value;
            var name := ToLowerAscii(service.name);
            && !IsSystemService(name) && !IsNetworkService(name) && !IsSecurityService(name)
            && !IsRemoteOrCaptureService(name) && !IsDeviceService(name)
            && name in config.serviceRules && config.serviceRules[name].protection == Optimizable
            && EligibleClass(config.serviceRules[name].serviceClass)
            && !ContainsBlockedKeyword(service)
            && name !in config.profile.alwaysProtectServices && name in config.profile.allowServiceStop
            && (forall t | t in s.sessions && IsRemoteSession(t, config.remoteDebugPorts) :: t.pid != service.pid)
            && a.explicitConfirmation && service.identityToken == a.serviceIdentity
  {
    hide ContainsBlockedKeyword;
  }
}
