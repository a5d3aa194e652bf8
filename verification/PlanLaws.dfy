/** What the plan must hold, entry by entry of a snapshot, in the terms of the profile and the protection policy. */
module PlanLaws {
  import opened Types
  import opened Policy
  import opened Planner

  // ----- What an entry of the inventory deserves -----

  predicate ListedForRaise(config: Config, p: ProcessSnapshot) {
    var name := ToLowerAscii(p.name);
    name in config.profile.foregroundPriority && (name == "codex.exe" || p.hasVisibleWindow || p.isForeground)
  }

  predicate ListedForClose(config: Config, p: ProcessSnapshot) {
    !ListedForRaise(config, p) && ToLowerAscii(p.name) in config.profile.allowGracefulClose
  }

  predicate ListedForDecrease(config: Config, p: ProcessSnapshot) {
    && !ListedForRaise(config, p) && ToLowerAscii(p.name) !in config.profile.allowGracefulClose
    && ToLowerAscii(p.name) in config.profile.allowPriorityDown
  }

  /** The priority the profile asks for; zero if it is none. */
  function Wanted(config: Config, p: ProcessSnapshot): u32
    requires ListedForRaise(config, p)
  {
    PriorityFromName(config.profile.foregroundPriority[ToLowerAscii(p.name)])
  }

  predicate Identified(p: ProcessSnapshot) { p.startTime != 0 && p.priority != 0 }

  predicate CompleteInventory(s: SystemSnapshot) { s.processComplete && s.tcpComplete }

  function ContextIn(config: Config, s: SystemSnapshot): RuntimeContext {
    ContextOf(s, config.remoteDebugPorts)
  }

  predicate DeservesRaise(config: Config, s: SystemSnapshot, p: ProcessSnapshot) {
    && ListedForRaise(config, p) && Identified(p) && Wanted(config, p) != 0 && Wanted(config, p) != p.priority
    && CanChangePriority(config, p, ContextIn(config, s), true)
  }

  predicate DeservesClose(config: Config, s: SystemSnapshot, p: ProcessSnapshot) {
    && ListedForClose(config, p) && CompleteInventory(s) && p.startTime != 0
    && p.hasVisibleWindow && !p.isForeground && CanGracefullyClose(config, p, ContextIn(config, s))
  }

  predicate DeservesDecrease(config: Config, s: SystemSnapshot, p: ProcessSnapshot) {
    && ListedForDecrease(config, p) && CompleteInventory(s) && Identified(p) && p.priority != BELOW_NORMAL_PRIORITY
    && CanChangePriority(config, p, ContextIn(config, s), false)
  }

  predicate DeservesStop(config: Config, s: SystemSnapshot, service: ServiceSnapshot) {
    ToLowerAscii(service.name) in config.profile.allowServiceStop
    && CanStopTemporary(config, service, ContextIn(config, s))
  }

  // ----- The actions that do it -----

  predicate Aims(a: OptimizationAction, p: ProcessSnapshot) {
    a.pid == p.pid && a.startTime == p.startTime && a.processName == p.name
  }

  predicate Changes(a: OptimizationAction, p: ProcessSnapshot, target: u32) {
    && a.kind.SetPriorityClass? && a.risk == Safe && Aims(a, p)
    && a.sourcePriority == p.priority && a.targetPriority == target
  }

  predicate Closes(a: OptimizationAction, p: ProcessSnapshot) {
    a.kind.GracefulCloseProcess? && a.risk == ActionRisk.Low && Aims(a, p) && a.timeoutMs == 2000
  }

  predicate StopsService(a: OptimizationAction, service: ServiceSnapshot) {
    && a.kind.StopServiceTemporary? && a.risk == ActionRisk.Medium && !a.explicitConfirmation
    && a.serviceName == service.name && a.serviceIdentity == service.identityToken
    && a.sourceServiceState == service.state && a.timeoutMs == 15000
  }

  /** `a` is what `p` deserves. */
  predicate Serves(config: Config, s: SystemSnapshot, a: OptimizationAction, p: ProcessSnapshot) {
    || (DeservesRaise(config, s, p) && Changes(a, p, Wanted(config, p)))
    || (DeservesClose(config, s, p) && Closes(a, p))
    || (DeservesDecrease(config, s, p) && Changes(a, p, BELOW_NORMAL_PRIORITY))
  }

  predicate Deserves(config: Config, s: SystemSnapshot, p: ProcessSnapshot) {
    DeservesRaise(config, s, p) || DeservesClose(config, s, p) || DeservesDecrease(config, s, p)
  }

  /** Listed, and already as the profile wants it. */
  predicate Contented(config: Config, p: ProcessSnapshot) {
    || (ListedForRaise(config, p) && Identified(p) && Wanted(config, p) == p.priority)
    || (ListedForDecrease(config, p) && p.priority == BELOW_NORMAL_PRIORITY)
  }

  predicate Listed(config: Config, p: ProcessSnapshot) {
    ListedForRaise(config, p) || ListedForClose(config, p) || ListedForDecrease(config, p)
  }

  // ----- One proposal -----

  lemma RaiseProposal(config: Config, s: SystemSnapshot, p: ProcessSnapshot)
    requires ListedForRaise(config, p)
    ensures var r := ProposeForProcess(config, ContextIn(config, s), s, p);
            && (DeservesRaise(config, s, p) <==> r.Proposed?) && (Contented(config, p) <==> r.Nothing?)
            && (r.Proposed? ==> Changes(r.action, p, Wanted(config, p)))
            && (r.Refused? ==> p.name <= r.reason)
  {
    hide ContextIn, ContextOf, CanChangePriority, CanGracefullyClose, ToLowerAscii, Digits, PriorityFromName;
    NotTheOthers(config, p);
  }

  lemma NotTheOthers(config: Config, p: ProcessSnapshot)
    requires ListedForRaise(config, p)
    ensures !ListedForClose(config, p) && !ListedForDecrease(config, p)
  {
  }

  lemma CloseProposal(config: Config, s: SystemSnapshot, p: ProcessSnapshot)
    requires ListedForClose(config, p)
    ensures var r := ProposeForProcess(config, ContextIn(config, s), s, p);
            && (DeservesClose(config, s, p) <==> r.Proposed?) && !r.Nothing?
            && (r.Proposed? ==> Closes(r.action, p))
            && (r.Refused? ==> p.name <= r.reason)
  {
    hide ContextIn, ContextOf, CanChangePriority, CanGracefullyClose, ToLowerAscii, Digits, PriorityFromName;
  }

  lemma DecreaseProposal(config: Config, s: SystemSnapshot, p: ProcessSnapshot)
    requires ListedForDecrease(config, p)
    ensures var r := ProposeForProcess(config, ContextIn(config, s), s, p);
            && (DeservesDecrease(config, s, p) <==> r.Proposed?) && (Contented(config, p) <==> r.Nothing?)
            && (r.Proposed? ==> Changes(r.action, p, BELOW_NORMAL_PRIORITY))
            && (r.Refused? ==> p.name <= r.reason)
  {
    hide ContextIn, ContextOf, CanChangePriority, CanGracefullyClose, ToLowerAscii, Digits, PriorityFromName;
  }

  lemma NoProposal(config: Config, s: SystemSnapshot, p: ProcessSnapshot)
    requires !Listed(config, p)
    ensures ProposeForProcess(config, ContextIn(config, s), s, p).Nothing?
  {
    hide ContextIn, ContextOf, CanChangePriority, CanGracefullyClose, ToLowerAscii, ProposeRaise, ProposeClose,
         ProposeLower;
  }

  /** What becomes of an entry: planned exactly if deserved, refused exactly if listed otherwise and not contented. */
  lemma ProcessProposal(config: Config, s: SystemSnapshot, p: ProcessSnapshot)
    ensures var r := ProposeForProcess(config, ContextIn(config, s), s, p);
            && (r.Proposed? <==> Deserves(config, s, p)) && (r.Proposed? ==> Serves(config, s, r.action, p))
            && (r.Refused? <==> Listed(config, p) && !Deserves(config, s, p) && !Contented(config, p))
            && (r.Refused? ==> p.name <= r.reason)
  {
    hide ContextIn, ProposeForProcess, Changes, Closes;
    if ListedForRaise(config, p) {
      RaiseProposal(config, s, p);
      NotTheOthers(config, p);
    } else if ListedForClose(config, p) {
      CloseProposal(config, s, p);
    } else if ListedForDecrease(config, p) {
      DecreaseProposal(config, s, p);
    } else {
      NoProposal(config, s, p);
    }
  }

  lemma ServiceProposal(config: Config, s: SystemSnapshot, v: ServiceSnapshot)
    ensures var r := ProposeForService(config, ContextIn(config, s), v);
            && (r.Proposed? <==> DeservesStop(config, s, v)) && (r.Proposed? ==> StopsService(r.action, v))
            && (r.Refused? <==>
                  ToLowerAscii(v.name) in config.profile.allowServiceStop && !DeservesStop(config, s, v))
            && (r.Refused? ==> v.name <= r.reason)
  {
    hide ContextIn, CanStopTemporary, ToLowerAscii;
  }

  // ----- The whole plan -----

  lemma {:induction false} Collected(proposals: seq<Proposal>)
    ensures forall a :: a in Actions(proposals) <==> Proposed(a) in proposals
    ensures forall reason :: reason in Refusals(proposals) <==> Refused(reason) in proposals
  {
    if proposals != [] {
      var n := |proposals| - 1;
      Collected(proposals[..n]);
      assert proposals == proposals[..n] + [proposals[n]];
    }
  }

  function RejectedOf(config: Config, s: SystemSnapshot): seq<string> {
    Refusals(ProcessProposals(config, s)) + Refusals(ServiceProposals(config, s))
  }

  /** Whatever deserves an action gets one. */
  lemma PlanIsComplete(config: Config, s: SystemSnapshot)
    ensures forall p | p in s.processes && Deserves(config, s, p) ::
              exists a | a in PlanOf(config, s) :: Serves(config, s, a, p)
    ensures forall v | v in s.services && DeservesStop(config, s, v) ::
              exists a | a in PlanOf(config, s) :: StopsService(a, v)
  {
    hide Actions, Refusals, ProposeForProcess, ProposeForService, Deserves, Serves, DeservesStop, StopsService,
         ContextOf;
    var processes, services := ProcessProposals(config, s), ServiceProposals(config, s);
    Collected(processes);
    Collected(services);
    forall p | p in s.processes && Deserves(config, s, p)
      ensures exists a | a in PlanOf(config, s) :: Serves(config, s, a, p)
    {
      var i :| 0 <= i < |s.processes| && s.processes[i] == p;
      ProcessProposal(config, s, p);
      assert processes[i] in processes;
      assert processes[i].action in PlanOf(config, s);
    }
    forall v | v in s.services && DeservesStop(config, s, v)
      ensures exists a | a in PlanOf(config, s) :: StopsService(a, v)
    {
      var i :| 0 <= i < |s.services| && s.services[i] == v;
      ServiceProposal(config, s, v);
      assert services[i] in services;
      assert services[i].action in PlanOf(config, s);
    }
  }

  /** Nothing is planned that is not deserved. */
  lemma PlanIsSound(config: Config, s: SystemSnapshot, a: OptimizationAction)
    requires a in PlanOf(config, s)
    ensures (exists p | p in s.processes :: Serves(config, s, a, p))
            || exists v | v in s.services :: DeservesStop(config, s, v) && StopsService(a, v)
  {
    hide Actions, Refusals, ProposeForProcess, ProposeForService, Deserves, Serves, DeservesStop, StopsService,
         ContextOf;
    var processes, services := ProcessProposals(config, s), ServiceProposals(config, s);
    Collected(processes);
    Collected(services);
    if Proposed(a) in processes {
      var i :| 0 <= i < |processes| && processes[i] == Proposed(a);
      ProcessProposal(config, s, s.processes[i]);
      assert s.processes[i] in s.processes;
    } else {
      var i :| 0 <= i < |services| && services[i] == Proposed(a);
      ServiceProposal(config, s, s.services[i]);
      assert s.services[i] in s.services;
    }
  }

  /** Every planned priority change changes something. */
  lemma PlannedChangesChange(config: Config, s: SystemSnapshot, a: OptimizationAction)
    requires a in PlanOf(config, s) && a.kind.SetPriorityClass?
    ensures a.targetPriority != a.sourcePriority && a.sourcePriority != 0 && a.targetPriority != 0
  {
    hide PlanOf, CanChangePriority, CanGracefullyClose, CanStopTemporary, ContextIn, Wanted;
    PlanIsSound(config, s, a);
  }

  /** What is listed, not contented and not planned is refused by name; nothing else is refused. */
  lemma RejectedIsTheRest(config: Config, s: SystemSnapshot)
    ensures forall p | p in s.processes && Listed(config, p) && !Deserves(config, s, p) && !Contented(config, p) ::
              exists reason | reason in RejectedOf(config, s) :: p.name <= reason
    ensures forall v | v in s.services && ToLowerAscii(v.name) in config.profile.allowServiceStop
                       && !DeservesStop(config, s, v) ::
              exists reason | reason in RejectedOf(config, s) :: v.name <= reason
    ensures |RejectedOf(config, s)| > 0 ==>
              || (exists p | p in s.processes :: Listed(config, p) && !Deserves(config, s, p) && !Contented(config, p))
              || exists v | v in s.services ::
                   ToLowerAscii(v.name) in config.profile.allowServiceStop && !DeservesStop(config, s, v)
  {
    hide Actions, Refusals, ProposeForProcess, ProposeForService, Deserves, Serves, DeservesStop, StopsService,
         ContextOf, Listed, Contented;
    var processes, services := ProcessProposals(config, s), ServiceProposals(config, s);
    Collected(processes);
    Collected(services);
    forall p | p in s.processes && Listed(config, p) && !Deserves(config, s, p) && !Contented(config, p)
      ensures exists reason | reason in RejectedOf(config, s) :: p.name <= reason
    {
      var i :| 0 <= i < |s.processes| && s.processes[i] == p;
      ProcessProposal(config, s, p);
      assert processes[i] in processes;
      assert processes[i].reason in RejectedOf(config, s);
    }
    forall v | v in s.services && ToLowerAscii(v.name) in config.profile.allowServiceStop && !DeservesStop(config, s, v)
      ensures exists reason | reason in RejectedOf(config, s) :: v.name <= reason
    {
      var i :| 0 <= i < |s.services| && s.services[i] == v;
      ServiceProposal(config, s, v);
      assert services[i] in services;
      assert services[i].reason in RejectedOf(config, s);
    }
    if |RejectedOf(config, s)| > 0 {
      SomeoneWasRefused(config, s);
    }
  }

  lemma SomeoneWasRefused(config: Config, s: SystemSnapshot)
    requires |RejectedOf(config, s)| > 0
    ensures || (exists p | p in s.processes :: Listed(config, p) && !Deserves(config, s, p) && !Contented(config, p))
            || exists v | v in s.services ::
                 ToLowerAscii(v.name) in config.profile.allowServiceStop && !DeservesStop(config, s, v)
  {
    hide Actions, Refusals, ProposeForProcess, ProposeForService, Deserves, Serves, DeservesStop, StopsService,
         ContextOf, Listed, Contented;
    var processes, services := ProcessProposals(config, s), ServiceProposals(config, s);
    Collected(processes);
    Collected(services);
    var reason := RejectedOf(config, s)[0];
    assert reason in RejectedOf(config, s);
    if Refused(reason) in processes {
      var i :| 0 <= i < |processes| && processes[i] == Refused(reason);
      ProcessProposal(config, s, s.processes[i]);
      assert s.processes[i] in s.processes;
    } else {
      var i :| 0 <= i < |services| && services[i] == Refused(reason);
      ServiceProposal(config, s, s.services[i]);
      assert s.services[i] in s.services;
    }
  }

  // ----- What the validator accepts -----

  predicate SameProcess(a: OptimizationAction, p: ProcessSnapshot) {
    && a.pid == p.pid && a.startTime == p.startTime && a.startTime != 0
    && ToLowerAscii(a.processName) == ToLowerAscii(p.name)
  }

  lemma {:induction false} FindsOnlyService(services: seq<ServiceSnapshot>, v: ServiceSnapshot)
    requires v in services && DistinctServices(services)
    ensures forall name | ToLowerAscii(name) == ToLowerAscii(v.name) :: FindService(services, name) == Some(v)
  {
    hide ToLowerAscii;
    if services[0] != v {
      FindsOnlyService(services[1..], v);
      var i :| 0 <= i < |services| && services[i] == v;
      assert ToLowerAscii(services[0].name) != ToLowerAscii(services[i].name);
    }
  }

  lemma {:induction false} FoundService(services: seq<ServiceSnapshot>, name: string)
    requires FindService(services, name).Some?
    ensures FindService(services, name).value in services
    ensures ToLowerAscii(FindService(services, name).value.name) == ToLowerAscii(name)
  {
    hide ToLowerAscii;
    if ToLowerAscii(services[0].name) != ToLowerAscii(name) {
      FoundService(services[1..], name);
    }
  }

  /** A process a close may be sent to. */
  predicate Closable(config: Config, s: SystemSnapshot, p: ProcessSnapshot) {
    p.hasVisibleWindow && !p.isForeground && CanGracefullyClose(config, p, ContextIn(config, s))
  }

  /** A process whose priority may be changed to `target`: raised, or else anything but raised. */
  predicate Changeable(config: Config, s: SystemSnapshot, p: ProcessSnapshot, target: u32) {
    var raise := PriorityRank(target) > PriorityRank(p.priority);
    (raise || CompleteInventory(s)) && CanChangePriority(config, p, ContextIn(config, s), raise)
  }

  /** Exactly the closes of low risk, with a time-out in bounds, of a closable process of that identity and name. */
  lemma AcceptedCloses(config: Config, s: SystemSnapshot, a: OptimizationAction)
    requires DistinctPids(s.processes) && a.kind.GracefulCloseProcess?
    ensures Validate(config, a, s) <==>
              && a.risk == ActionRisk.Low && 100 <= a.timeoutMs <= 5000 && CompleteInventory(s)
              && exists p | p in s.processes :: SameProcess(a, p) && Closable(config, s, p)
  {
    hide CanGracefullyClose, CanChangePriority, ToLowerAscii, FindProcess, ContextOf;
    OneCandidate(s.processes, a);
    forall p | p in s.processes && SameProcess(a, p) ensures FindProcess(s.processes, a.pid) == Some(p) {
      var i :| 0 <= i < |s.processes| && s.processes[i] == p;
      FindsProcess(s.processes, i);
    }
  }

  lemma OneCandidate(processes: seq<ProcessSnapshot>, a: OptimizationAction)
    ensures FindProcess(processes, a.pid).Some? ==>
              FindProcess(processes, a.pid).value in processes && FindProcess(processes, a.pid).value.pid == a.pid
  {
    if FindProcess(processes, a.pid).Some? {
      FoundIsMember(processes, a.pid);
    }
  }

  /** Exactly the safe changes to a moderate priority, of a changeable process of that identity and name. */
  lemma AcceptedChanges(config: Config, s: SystemSnapshot, a: OptimizationAction)
    requires DistinctPids(s.processes) && a.kind.SetPriorityClass?
    ensures Validate(config, a, s) <==>
              && a.risk == Safe
              && a.targetPriority !in {0, IDLE_PRIORITY, HIGH_PRIORITY, REALTIME_PRIORITY}
              && exists p | p in s.processes :: SameProcess(a, p) && Changeable(config, s, p, a.targetPriority)
  {
    hide CanGracefullyClose, CanChangePriority, ToLowerAscii, FindProcess, ContextOf, PriorityRank;
    OneCandidate(s.processes, a);
    forall p | p in s.processes && SameProcess(a, p) ensures FindProcess(s.processes, a.pid) == Some(p) {
      var i :| 0 <= i < |s.processes| && s.processes[i] == p;
      FindsProcess(s.processes, i);
    }
  }

  /** Exactly the confirmed stops of medium risk, with a time-out in bounds, of a stoppable service of that identity. */
  lemma AcceptedStops(config: Config, s: SystemSnapshot, a: OptimizationAction)
    requires DistinctServices(s.services) && a.kind.StopServiceTemporary?
    ensures Validate(config, a, s) <==>
              && a.risk == ActionRisk.Medium && a.explicitConfirmation && 1000 <= a.timeoutMs <= 30000
              && CompleteInventory(s) && s.serviceComplete
              && exists v | v in s.services ::
                   && ToLowerAscii(v.name) == ToLowerAscii(a.serviceName) && v.identityToken == a.serviceIdentity
                   && CanStopTemporary(config, v, ContextIn(config, s))
  {
    hide ServiceProtection, ServiceRuleFor, ToLowerAscii, FindService, ContextOf, DistinctServices;
    if FindService(s.services, a.serviceName).Some? {
      FoundService(s.services, a.serviceName);
    }
    forall v | v in s.services && ToLowerAscii(v.name) == ToLowerAscii(a.serviceName)
      ensures FindService(s.services, a.serviceName) == Some(v)
    {
      FindsOnlyService(s.services, v);
    }
  }

  /** No other kind of action is ever accepted. */
  lemma OthersAreRefused(config: Config, s: SystemSnapshot, a: OptimizationAction)
    requires !a.kind.GracefulCloseProcess? && !a.kind.SetPriorityClass? && !a.kind.StopServiceTemporary?
    ensures !Validate(config, a, s)
  {
    hide FindProcess, ToLowerAscii;
  }

  // ----- What the policy lets be touched -----

  /** The rule of the configuration for a process that no fixed rule covers. */
  predicate LeftToConfiguration(config: Config, p: ProcessSnapshot) {
    var name := ToLowerAscii(p.name);
    && name in config.processRules
    && (config.processRules[name].protection == Normal || config.processRules[name].protection == Optimizable)
  }

  lemma UnprotectedExactly(config: Config, s: SystemSnapshot, p: ProcessSnapshot)
    requires p in s.processes && DistinctPids(s.processes) && Classified(config, s)
    ensures !IsProtected(config, p, ContextIn(config, s)) <==>
              !Untouchable(config, s, p) && LeftToConfiguration(config, p)
  {
    hide ToLowerAscii, WorkloadOf;
    var name, context := ToLowerAscii(p.name), ContextIn(config, s);
    assert p.classification == RuleFor(config, p.name).processClass;
    if Untouchable(config, s, p) {
      UntouchableIsProtected(config, s, p);
    } else {
      assert p.pid !in context.remotePids && p.pid !in context.capturePids;
    }
  }

  /** A close may be sent to exactly the listed processes that are not untouchable and left to the configuration. */
  lemma MayCloseExactly(config: Config, s: SystemSnapshot, p: ProcessSnapshot)
    requires p in s.processes && DistinctPids(s.processes) && Classified(config, s)
    ensures CanGracefullyClose(config, p, ContextIn(config, s)) <==>
              && ToLowerAscii(p.name) in config.profile.allowGracefulClose
              && !Untouchable(config, s, p) && LeftToConfiguration(config, p)
  {
    hide IsProtected, Untouchable, LeftToConfiguration, ToLowerAscii, ContextOf;
    UnprotectedExactly(config, s, p);
  }

  /**
   * A priority may be raised for exactly the listed development processes that nothing always protects, and changed
   * otherwise for exactly the listed processes that are not untouchable and left to the configuration.
   */
  lemma MayChangeExactly(config: Config, s: SystemSnapshot, p: ProcessSnapshot)
    requires p in s.processes && DistinctPids(s.processes) && Classified(config, s)
    ensures CanChangePriority(config, p, ContextIn(config, s), true) <==>
              && p.classification.Development? && ToLowerAscii(p.name) in config.profile.foregroundPriority
              && p.pid > 4 && ToLowerAscii(p.name) !in config.profile.alwaysProtect
    ensures CanChangePriority(config, p, ContextIn(config, s), false) <==>
              && ToLowerAscii(p.name) in config.profile.allowPriorityDown
              && !Untouchable(config, s, p) && LeftToConfiguration(config, p)
  {
    hide Untouchable, LeftToConfiguration, ToLowerAscii, ContextOf;
    UnprotectedExactly(config, s, p);
  }

  /** The six priority classes in their order. */
  lemma RanksAscend()
    ensures PriorityRank(IDLE_PRIORITY) < PriorityRank(BELOW_NORMAL_PRIORITY) < PriorityRank(NORMAL_PRIORITY)
    ensures PriorityRank(NORMAL_PRIORITY) < PriorityRank(ABOVE_NORMAL_PRIORITY) < PriorityRank(HIGH_PRIORITY)
    ensures PriorityRank(HIGH_PRIORITY) < PriorityRank(REALTIME_PRIORITY)
  {
  }
}
