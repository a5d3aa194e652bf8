/** Carrying out one action of a plan: persist it before it is carried out, carry it out, persist the outcome. */
module Enacting {
  import opened Types
  import opened SessionModel
  import opened Policy
  import opened Planner
  import opened Worlds
  import opened Moments
  import opened Refusals
  import opened Recoverable
  import opened Machines
  import opened Executor
  import opened SessionManager
  import Names
  import ServiceApi
  import Processes = ProcessActionApi

  // ----- Plans whose records the loader will let back in -----

  predicate Recordable(a: OptimizationAction) {
    match a.kind
    case SetPriorityClass => a.pid > 0 && a.startTime > 0 && a.risk == Safe
    case GracefulCloseProcess =>
      a.pid > 0 && a.startTime > 0 && a.risk == ActionRisk.Low && 100 <= a.timeoutMs <= 5000
    case StopServiceTemporary =>
      && a.pid == 0 && a.startTime == 0 && a.risk == ActionRisk.Medium && 1000 <= a.timeoutMs <= 30000
      && ValidServiceName(a.serviceName) && ValidServiceIdentity(a.serviceIdentity)
      && a.sourceServiceState == Running && a.explicitConfirmation
    case _ => false
  }

  lemma RecordableIsStorable(r: ExecutedAction)
    requires Recordable(r.action) && (r.state == Planned || IsOutcome(r.action.kind, r.state))
    requires r.action.kind.StopServiceTemporary? ==> r.originalServiceState == Running
    ensures ActionStorable(r) && Regular(r)
  {
  }

  function Confirmed(a: OptimizationAction): OptimizationAction {
    if a.kind.StopServiceTemporary? then a.(explicitConfirmation := true) else a
  }

  /** What a query tells about a service, and all that planning needs. */
  predicate Queried(service: ServiceSnapshot) {
    ValidServiceName(service.name) && (service.identityVerified ==> ValidServiceIdentity(service.identityToken))
  }

  predicate SeenIn(w: World, s: SystemSnapshot) {
    DistinctPids(s.processes)
    && forall p | p in s.processes && p.startTime != 0 :: p.pid != 0 && Ident(p.pid, p.startTime) in w.seen
  }

  /** A plan ready to be carried out: distinct, recordable targets that nothing else touches. */
  predicate Ready(w: World, plan: seq<OptimizationAction>) {
    DistinctTargets(plan) && forall a | a in plan :: Recordable(a) && IsWatched(w, a)
  }

  function WatchOf(plan: seq<OptimizationAction>): Watch {
    Watch(set a | a in plan && !a.kind.StopServiceTemporary? :: Target(a),
          set a | a in plan && a.kind.StopServiceTemporary? :: a.serviceName)
  }

  predicate WellPlanned(a: OptimizationAction, p: ProcessSnapshot) {
    && Recordable(a) && Confirmed(a) == a && !a.kind.StopServiceTemporary?
    && Target(a) == Ident(p.pid, p.startTime) && p.startTime != 0
  }

  lemma RaiseIsWellPlanned(config: Config, context: RuntimeContext, p: ProcessSnapshot)
    requires IsRaiseCandidate(config, p) && (p.startTime != 0 ==> p.pid != 0)
    ensures var r := ProposeRaise(config, context, p); r.Proposed? ==> WellPlanned(r.action, p)
  {
    hide CanChangePriority, ToLowerAscii, PriorityFromName, Digits;
  }

  lemma CloseIsWellPlanned(config: Config, context: RuntimeContext, s: SystemSnapshot, p: ProcessSnapshot)
    requires p.startTime != 0 ==> p.pid != 0
    ensures var r := ProposeClose(config, context, s, p); r.Proposed? ==> WellPlanned(r.action, p)
  {
    hide CanGracefullyClose, ToLowerAscii, Digits;
  }

  lemma LowerIsWellPlanned(config: Config, context: RuntimeContext, s: SystemSnapshot, p: ProcessSnapshot)
    requires p.startTime != 0 ==> p.pid != 0
    ensures var r := ProposeLower(config, context, s, p); r.Proposed? ==> WellPlanned(r.action, p)
  {
    hide CanChangePriority, ToLowerAscii, Digits;
  }

  lemma PlannedForProcess(config: Config, context: RuntimeContext, s: SystemSnapshot, p: ProcessSnapshot)
    requires ProposeForProcess(config, context, s, p).Proposed? && (p.startTime != 0 ==> p.pid != 0)
    ensures WellPlanned(ProposeForProcess(config, context, s, p).action, p)
  {
    hide ProposeRaise, ProposeClose, ProposeLower, WellPlanned, ToLowerAscii;
    if IsRaiseCandidate(config, p) {
      RaiseIsWellPlanned(config, context, p);
    }
    CloseIsWellPlanned(config, context, s, p);
    LowerIsWellPlanned(config, context, s, p);
  }

  lemma PlannedForService(config: Config, context: RuntimeContext, service: ServiceSnapshot)
    requires ProposeForService(config, context, service).Proposed? && Queried(service)
    ensures var a := ProposeForService(config, context, service).action;
            Recordable(Confirmed(a)) && a.kind.StopServiceTemporary?
  {
    hide ServiceProtection, ServiceRuleFor, ValidServiceName, ValidServiceIdentity;
  }

  /** Everything the planner proposes can be recorded, and concerns processes that have been seen. */
  lemma PlanIsRecordable(config: Config, s: SystemSnapshot, w: World, k: nat)
    requires SeenIn(w, s) && (forall service | service in s.services :: Queried(service))
    requires k < |PlanOf(config, s)|
    ensures var a := PlanOf(config, s)[k];
            Recordable(Confirmed(a)) && (!a.kind.StopServiceTemporary? ==> Target(a) in w.seen)
  {
    hide ProposeForProcess, ProposeForService, Actions, ContextOf, Recordable, Queried;
    var context := ContextOf(s, config.remoteDebugPorts);
    var processes, services := Actions(ProcessProposals(config, s)), Actions(ServiceProposals(config, s));
    var at := ActionsKeepOrder(ProcessProposals(config, s));
    var from := ActionsKeepOrder(ServiceProposals(config, s));
    if k < |processes| {
      PlannedForProcess(config, context, s, s.processes[at[k]]);
    } else {
      PlannedForService(config, context, s.services[from[k - |processes|]]);
    }
  }

  /** Marks every service stop as confirmed by the user. */
  method ConfirmAll(actions: seq<OptimizationAction>) returns (plan: seq<OptimizationAction>)
    ensures |plan| == |actions| && forall i | 0 <= i < |actions| :: plan[i] == Confirmed(actions[i])
  {
    plan := actions;
    for i := 0 to |actions|
      invariant |plan| == |actions|
      invariant forall j | 0 <= j < i :: plan[j] == Confirmed(actions[j])
      invariant forall j | i <= j < |actions| :: plan[j] == actions[j]
    {
      if plan[i].kind == StopServiceTemporary {
        plan := plan[i := plan[i].(explicitConfirmation := true)];
      }
    }
  }

  lemma ConfirmedPlanIsReady(
      config: Config, s: SystemSnapshot, w: World, plan: seq<OptimizationAction>, v: World)
    requires SeenIn(w, s) && (forall service | service in s.services :: Queried(service))
    requires DistinctServices(s.services)
    requires |plan| == |PlanOf(config, s)| && forall i | 0 <= i < |plan| :: plan[i] == Confirmed(PlanOf(config, s)[i])
    requires v.watch == WatchOf(plan)
    ensures Ready(v, plan) && WatchOf(plan).processes <= w.seen
  {
    PlanHasDistinctTargets(config, s);
    var proposed := PlanOf(config, s);
    hide PlanOf, Recordable, Queried, SeenIn;
    forall i, j | 0 <= i < j < |plan| ensures !SameTarget(plan[i], plan[j]) {
      assert !SameTarget(proposed[i], proposed[j]);
    }
    forall a | a in plan
      ensures Recordable(a) && IsWatched(v, a) && (!a.kind.StopServiceTemporary? ==> Target(a) in w.seen)
    {
      var i :| 0 <= i < |plan| && plan[i] == a;
      PlanIsRecordable(config, s, w, i);
    }
  }

  // ----- Snapshots -----

  lemma HonestStays(w: World, v: World, s: SystemSnapshot)
    requires Honest(w, s) && Touches(w, v, NOTHING)
    ensures Honest(v, s)
  {
    forall p | p in s.processes && p.startTime != 0
      ensures p.pid != 0 && Ident(p.pid, p.startTime) in v.seen
      ensures p.priority != 0 && Live(v, Ident(p.pid, p.startTime))
              && Ident(p.pid, p.startTime) in v.watch.processes ==>
                p.priority == v.procs[p.pid].priority
    {
      var who := Ident(p.pid, p.startTime);
      if Live(v, who) && who in v.watch.processes {
        WatchedStays(w, v, NOTHING, who);
      }
    }
  }

  lemma FaithfulStays(a: Trace, b: Trace, s: SystemSnapshot)
    requires Faithful(Last(a), s) && Quiet(a, b)
    ensures Faithful(Last(b), s)
  {
    QuietMeans(a, b);
    HonestStays(Last(a), Last(b), s);
  }

  lemma FaithfulIsSeen(w: World, s: SystemSnapshot)
    requires Faithful(w, s)
    ensures SeenIn(w, s)
  {
  }

  /** Services do not matter to what a snapshot says about processes. */
  lemma FaithfulWithServices(w: World, s: SystemSnapshot, services: seq<ServiceSnapshot>)
    requires Faithful(w, s)
    ensures Faithful(w, s.(services := services, serviceComplete := true))
  {
  }

  predicate LowerCaseNames(config: Config) {
    forall name | name in config.profile.allowServiceStop :: ToLowerAscii(name) == name
  }

  /** Some call failed since `w`, or a service without a name is configured. */
  predicate WentWrong(config: Config, w: World, v: World) {
    v.failures > w.failures || "" in config.profile.allowServiceStop
  }

  /** The services are those with the given names, in the order of their names. */
  predicate Lists(services: seq<ServiceSnapshot>, names: set<string>) {
    && (forall i | 0 <= i < |services| :: services[i].name in names)
    && (forall name | name in names :: exists i | 0 <= i < |services| :: services[i].name == name)
    && forall i, j | 0 <= i < j < |services| :: Names.Before(services[i].name, services[j].name)
  }

  lemma ListsOneMore(services: seq<ServiceSnapshot>, names: set<string>, rest: set<string>, service: ServiceSnapshot)
    requires Lists(services, names - rest) && rest <= names && Names.IsLeast(service.name, rest)
    requires forall i | 0 <= i < |services| :: forall name | name in rest :: Names.Before(services[i].name, name)
    ensures Lists(services + [service], names - (rest - {service.name}))
    ensures forall i | 0 <= i < |services + [service]| ::
              forall name | name in rest - {service.name} :: Names.Before((services + [service])[i].name, name)
  {
    var more := services + [service];
    forall name | name in names - (rest - {service.name}) ensures exists i | 0 <= i < |more| :: more[i].name == name {
      if name == service.name {
        assert more[|services|].name == name;
      } else {
        assert name in names - rest;
        var i :| 0 <= i < |services| && services[i].name == name;
        assert more[i].name == name;
      }
    }
  }

  lemma ListedAreDistinct(services: seq<ServiceSnapshot>, names: set<string>)
    requires Lists(services, names) && forall name | name in names :: ToLowerAscii(name) == name
    ensures DistinctServices(services)
  {
    forall i, j | 0 <= i < j < |services| ensures ToLowerAscii(services[i].name) != ToLowerAscii(services[j].name) {
      Names.BeforeIsStrict(services[i].name);
    }
  }

  ghost predicate AllDescribed(services: seq<ServiceSnapshot>, p: Moment, q: Moment) {
    forall service | service in services :: Described(p, q, service)
  }

  lemma AnotherDescribed(services: seq<ServiceSnapshot>, service: ServiceSnapshot, p: Moment, q: Moment, r: Moment)
    requires Since(p, q) && Since(q, r) && AllDescribed(services, p, q) && Described(q, r, service)
    ensures AllDescribed(services + [service], p, r)
  {
    hide Since, Described;
    AllDescribedWider(services, p, p, q, r) by { SinceItself(p); }
    DescribedWider(p, q, r, r, service) by { SinceItself(r); }
  }

  lemma AllDescribedWider(services: seq<ServiceSnapshot>, p: Moment, q: Moment, r: Moment, s: Moment)
    requires Since(p, q) && Since(q, r) && Since(r, s) && AllDescribed(services, q, r)
    ensures AllDescribed(services, p, s)
  {
    hide Since, Described;
    forall service | service in services ensures Described(p, s, service) {
      DescribedWider(p, q, r, s, service);
    }
  }

  /** `s` is what was found out between the two moments: a sample, with the services as they were described. */
  ghost predicate Judged(s: SystemSnapshot, p: Moment, q: Moment) {
    AllDescribed(s.services, p, q)
    && exists sample: SystemSnapshot ::
         s == sample.(services := s.services, serviceComplete := true) && Heard(p, q, Sampled(sample))
  }

  lemma JudgedWider(x: SystemSnapshot, p: Moment, q: Moment, r: Moment, s: Moment)
    requires Since(p, q) && Since(q, r) && Since(r, s) && Judged(x, q, r)
    ensures Judged(x, p, s)
  {
    hide Since, AllDescribed, Heard;
    AllDescribedWider(x.services, p, q, r, s);
    Wider(p, q, r, s);
  }

  lemma AttachedIsJudged(
      sample: SystemSnapshot, services: seq<ServiceSnapshot>, p: Moment, q: Moment, r: Moment)
    requires Since(p, q) && Since(q, r) && Heard(p, q, Sampled(sample)) && AllDescribed(services, q, r)
    ensures Judged(sample.(services := services, serviceComplete := true), p, r)
  {
    hide Since, AllDescribed, Heard;
    SinceItself(p);
    SinceItself(r);
    AllDescribedWider(services, p, q, r, r);
    Wider(p, p, q, r);
    var attached := sample.(services := services, serviceComplete := true);
    assert attached == sample.(services := attached.services, serviceComplete := true);
  }

  /** Queries every configured service, in the order of their names; one failure is a failure of all. */
  method AttachConfiguredServices(m: Machine, config: Config, snapshot: SystemSnapshot)
    returns (attached: Option<SystemSnapshot>)
    requires m.Valid() && LowerCaseNames(config)
    modifies m
    ensures m.Valid() && Quiet(old(m.trace), m.trace)
    ensures attached.Some? ==>
              && attached.value == snapshot.(services := attached.value.services, serviceComplete := true)
              && Lists(attached.value.services, config.profile.allowServiceStop)
              && DistinctServices(attached.value.services)
              && forall service | service in attached.value.services :: Queried(service)
    ensures attached.None? ==> WentWrong(config, old(m.Now()), m.Now())
    ensures Since(old(m.At()), m.At())
    ensures attached.Some? ==> AllDescribed(attached.value.services, old(m.At()), m.At())
  {
    hide Extends, Touches, Sane, ValidServiceName, ValidServiceIdentity, Quiet, DistinctServices, Since, Described;
    ghost var before, began := m.trace, m.At();
    QuietItself(before);
    SinceItself(began);
    var services: seq<ServiceSnapshot> := [];
    var names := config.profile.allowServiceStop;
    while names != {}
      invariant m.Valid() && Quiet(before, m.trace) && m.Failures() >= old(m.Failures())
      invariant names <= config.profile.allowServiceStop
      invariant Lists(services, config.profile.allowServiceStop - names)
      invariant forall i | 0 <= i < |services| :: forall name | name in names :: Names.Before(services[i].name, name)
      invariant forall service | service in services :: Queried(service)
      invariant Since(began, m.At()) && AllDescribed(services, began, m.At())
      decreases |names|
    {
      var name := Names.Least(names);
      ghost var entered, asking := m.trace, m.At();
      var service, code := ServiceApi.Query(m, name);
      QuietOn(before, entered, m.trace);
      QuietMeans(entered, m.trace);
      SinceOn(began, asking, m.At());
      if service.None? {
        return None;
      }
      AnotherDescribed(services, service.value, began, asking, m.At());
      ListsOneMore(services, config.profile.allowServiceStop, names, service.value);
      hide Lists;
      services, names := services + [service.value], names - {name};
    }
    assert config.profile.allowServiceStop - names == config.profile.allowServiceStop;
    ListedAreDistinct(services, config.profile.allowServiceStop);
    return Some(snapshot.(services := services, serviceComplete := true));
  }

  /** One sample with the configured services in it: what the validator judges the next action by. */
  method CaptureActionState(m: Machine, config: Config) returns (snapshot: Option<SystemSnapshot>)
    requires m.Valid() && LowerCaseNames(config)
    modifies m
    ensures m.Valid() && Quiet(old(m.trace), m.trace)
    ensures snapshot.Some? ==>
              Faithful(m.Now(), snapshot.value) && Lists(snapshot.value.services, config.profile.allowServiceStop)
    ensures snapshot.None? ==> WentWrong(config, old(m.Now()), m.Now())
    ensures Since(old(m.At()), m.At()) && (snapshot.Some? ==> Judged(snapshot.value, old(m.At()), m.At()))
  {
    hide Extends, Touches, Sane, DistinctServices, Queried, Lists, Faithful, LowerCaseNames, Since, Judged,
         AllDescribed, Heard;
    ghost var before := m.At();
    snapshot := m.Sample();
    if snapshot.None? {
      return;
    }
    ghost var taken, sampled, told := m.trace, snapshot.value, m.At();
    QuietMeans(before.trace, taken);
    snapshot := AttachConfiguredServices(m, config, snapshot.value);
    SinceOn(before, told, m.At());
    QuietMeans(taken, m.trace);
    FaithfulStays(taken, m.trace, sampled);
    if snapshot.Some? {
      FaithfulWithServices(m.Now(), sampled, snapshot.value.services);
      AttachedIsJudged(sampled, snapshot.value.services, before, told, m.At());
    }
  }

  // ----- One action -----

  /** The record that is persisted before anything is done: for a priority, with the value to go back to. */
  method PlannedRecord(a: OptimizationAction, snapshot: SystemSnapshot) returns (record: ExecutedAction)
    requires DistinctPids(snapshot.processes)
    ensures record.action == a && record.state == Planned
    ensures a.kind.StopServiceTemporary? ==> record.originalServiceState == a.sourceServiceState
    ensures a.kind.SetPriorityClass? ==>
              forall p | p in snapshot.processes && p.pid == a.pid && p.startTime == a.startTime ::
                record.originalPriority == p.priority
  {
    record := ExecutedAction(a, Planned, 0, ServiceState.Unknown, 0, "", "");
    if a.kind == SetPriorityClass {
      record := record.(originalPriority := a.sourcePriority);
      for i := 0 to |snapshot.processes|
        invariant forall j | 0 <= j < i ::
                    !(snapshot.processes[j].pid == a.pid && snapshot.processes[j].startTime == a.startTime)
      {
        var p := snapshot.processes[i];
        if p.pid == a.pid && p.startTime == a.startTime {
          record := record.(originalPriority := p.priority);
          break;
        }
      }
    } else if a.kind == StopServiceTemporary {
      record := record.(originalServiceState := a.sourceServiceState);
    }
  }

  /** The snapshot has the priority of the target of `a`. */
  predicate PriorityKnown(s: SystemSnapshot, a: OptimizationAction) {
    a.kind.SetPriorityClass? ==>
      forall p | p in s.processes && p.pid == a.pid && p.startTime == a.startTime :: p.priority != 0
  }

  /**
   * An action that validates has its target in the snapshot, so the persisted value is the one from before, exactly if
   * the snapshot has the priority of the target at all.
   */
  lemma PlannedPayloadIsTrue(
      config: Config, w: World, records: seq<ExecutedAction>, r: ExecutedAction, s: SystemSnapshot)
    requires Backed(w, records) && (forall i | 0 <= i < |records| :: !SameTarget(records[i].action, r.action))
    requires Honest(w, s) && IsWatched(w, r.action) && Validate(config, r.action, s) && r.state == Planned
    requires r.action.kind.SetPriorityClass? ==>
               forall p | p in s.processes && p.pid == r.action.pid && p.startTime == r.action.startTime ::
                 r.originalPriority == p.priority
    ensures TruePayload(w, r) <==> PriorityKnown(s, r.action)
  {
    if r.action.kind.SetPriorityClass? {
      FreshTargetIsClean(w, records, r.action);
      FoundIsMember(s.processes, r.action.pid);
      hide Backed, SameTarget, CanChangePriority, ContextOf;
      var p := FindProcess(s.processes, r.action.pid).value;
      assert ValidateProcess(config, r.action, s, p);
      assert p.startTime != 0;
      assert Ident(p.pid, p.startTime) == Target(r.action);
      assert p in s.processes && p.pid == r.action.pid && p.startTime == r.action.startTime;
    }
  }

  const UNREADABLE := ProcessSnapshot(
    5, "a", 7, 0, true, true, ProcessClass.Development, ProtectionLevel.Strong, 0.0, 0, 0.0, 0.0)

  const WITH_UNREADABLE := SystemSnapshot(
    0, 0.0, MemorySnapshot(0, 0, 0), 0.0, [], [UNREADABLE], [], [], true, true, true)

  const RAISE_UNREADABLE := OptimizationAction(
    "", SetPriorityClass, Safe, 5, 7, "a", NORMAL_PRIORITY, ABOVE_NORMAL_PRIORITY, 0, "", "", ServiceState.Unknown,
    false, "")

  /**
   * The validator does not ask for the priority it compares with: a raise of a process whose priority could not be read
   * passes, is persisted with a restore value of zero, and a crash right after it can then not be undone
   * (`Executor.Rollback`).
   */
  lemma UnreadablePriorityIsAccepted(config: Config)
    requires "a" in config.profile.foregroundPriority && "a" !in config.profile.alwaysProtect
    ensures Validate(config, RAISE_UNREADABLE, WITH_UNREADABLE) && !PriorityKnown(WITH_UNREADABLE, RAISE_UNREADABLE)
  {
    assert ToLowerAscii("a") == "a";
    assert FindProcess(WITH_UNREADABLE.processes, 5) == Some(UNREADABLE);
    assert UNREADABLE in WITH_UNREADABLE.processes;
  }

  lemma FaithfulKnowsPriorities(
      config: Config, w: World, s: SystemSnapshot, a: OptimizationAction)
    requires Faithful(w, s) && Validate(config, a, s)
    ensures PriorityKnown(s, a)
  {
    hide CanChangePriority, ContextOf;
    if a.kind.SetPriorityClass? {
      FoundIsMember(s.processes, a.pid);
      assert ValidateProcess(config, a, s, FindProcess(s.processes, a.pid).value);
    }
  }

  /** What an outcome tells is true. */
  lemma OutcomeIsTold(w: World, v: World, done: seq<Effect>, r: ExecutedAction)
    requires !Done(w.log, r.action) && v.log == w.log + done && forall e | e in done :: Deed(e) && DoneFor(e, r.action)
    requires r.state == Failed || r.state == Rejected ==> done == []
    requires r.state == Applied ==> done != []
    requires r.state == ActionState.Completed && Live(v, Target(r.action)) ==>
               done != [] && AllDelivered(done, Target(r.action))
    ensures Told(v, r)
  {
    if done != [] {
      assert done[0] in v.log && Deed(done[0]) && DoneFor(done[0], r.action);
    }
    if r.action.kind.GracefulCloseProcess? && r.state == ActionState.Completed && Live(v, Target(r.action)) {
      forall e | e in v.log && e.CloseSent? && e.who == Target(r.action) ensures e.delivered {
        assert e in done || e in w.log;
        assert Deed(e) && DoneFor(e, r.action);
      }
    }
  }

  /** What is done for the planned record was planned on disk. */
  lemma ExecutingIsAuthorized(w: World, v: World, done: seq<Effect>, r: ExecutedAction)
    requires v.log == w.log + done && forall e | e in done :: DoneFor(e, r.action)
    requires r in RecordsOf(w) && r.state == Planned
    ensures Authorized(w, v)
  {
    assert v.log[|w.log|..] == done;
    forall e | e in done ensures Awaits(r, e) {
    }
  }

  /** What an execution leaves behind keeps the run recoverable, with the planned record on disk or the outcome. */
  lemma ExecutedStaysBacked(
      a: Trace, b: Trace, earlier: seq<ExecutedAction>, planned: ExecutedAction, result: ExecutedAction,
      done: seq<Effect>)
    requires Fine(a) && Last(a).file.Some? && Last(a).file.value.actions == earlier + [planned]
    requires Backed(Last(a), earlier) && planned.state == Planned
    requires forall i | 0 <= i < |earlier| :: !SameTarget(earlier[i].action, planned.action)
    requires Extends(a, b, ActionScope(planned.action)) && Did(a, b, done, planned.action)
    requires result.action == planned.action && ActionStorable(result) && Regular(result)
    requires Pending(result.state) ==> TruePayload(Last(b), result)
    requires result.state == Failed || result.state == Rejected ==> Quiet(a, b)
    requires result.state == Applied ==> done != []
    requires result.state == ActionState.Completed && Live(Last(b), Target(result.action)) ==>
               done != [] && AllDelivered(done, Target(result.action))
    requires Pending(result.state) || result.state == Failed || result.state == Rejected
             || !IsReversible(result.action.kind)
    ensures Fine(b) && Backed(Last(b), earlier + [result])
  {
    var all, w, v := earlier + [planned], Last(a), Last(b);
    FineMeansBacked(a);
    FreshTargetIsClean(w, earlier, planned.action);
    ExtendsMeans(a, b, ActionScope(planned.action));
    NewDeeds(w.log, done, earlier, planned.action) by { FineMeansGood(a); }
    assert IsWatched(w, planned.action) by { assert planned in all; }
    JustifiedByPlan(earlier, planned, w);
    ExecutingIsAuthorized(w, v, done, planned) by { assert planned in all; }
    hide Extends, Touches, Good, NoRepeat, SameTarget, ActionStorable, ActionScope, Quiet, Authorized, Done,
         AllDelivered, StepOk, DoneFor, Deed;
    if result.state == Failed || result.state == Rejected {
      QuietMeans(a, b);
    }
    OutcomeIsTold(w, v, done, result);
    FineOn(a, b, ActionScope(planned.action));
    FineMeansBacked(b);
    assert v.file == w.file by { FileKept(a, b, ActionScope(planned.action)); }
    hide Backed, Justified, IsWatched, Target, Told;
    if !Pending(result.state) && IsReversible(result.action.kind) {
      CleanStays(w, v, planned.action);
    }
    assert all[|earlier|] == planned && all[|earlier| := result] == earlier + [result];
    RecordChanged(v, all, |earlier|, result) by {
      assert MayBecome(v, all[|earlier|], result);
    }
  }

  lemma FileKept(a: Trace, b: Trace, scope: Scope)
    requires Extends(a, b, scope)
    ensures Last(b).file == Last(a).file
  {
  }

  lemma JustifiedByPlan(earlier: seq<ExecutedAction>, planned: ExecutedAction, w: World)
    requires planned.state == Planned && Backed(w, earlier + [planned])
    ensures Justified(earlier + [planned], ActionScope(planned.action))
  {
    var all := earlier + [planned];
    assert planned in all && ActionStorable(all[|earlier|]);
  }

  lemma ReadyStays(w: World, v: World, plan: seq<OptimizationAction>)
    requires Ready(w, plan) && v.watch == w.watch
    ensures Ready(v, plan)
  {
  }

  /** The session records the first actions of the plan, in order. */
  predicate Records(session: Session, plan: seq<OptimizationAction>) {
    |session.actions| <= |plan| && forall i | 0 <= i < |session.actions| :: session.actions[i].action == plan[i]
  }


  predicate IsSettledOutcome(state: ActionState) {
    state == Applied || state == ActionState.Completed || state == Failed || state == Rejected
  }

  /** The state between two actions of a session that is being entered. */
  ghost predicate InEnter(t: Trace, session: Session, plan: seq<OptimizationAction>) {
    && Fine(t) && Last(t).file == Some(session) && Ready(Last(t), plan) && Records(session, plan)
    && forall r | r in session.actions :: IsSettledOutcome(r.state)
  }

  lemma InEnterMeans(t: Trace, session: Session, plan: seq<OptimizationAction>)
    requires InEnter(t, session, plan)
    ensures Fine(t) && Last(t).file == Some(session)
    ensures Backed(Last(t), session.actions) && PointStorable(session.baseline)
  {
    hide Ready, Records;
    FineMeansBacked(t);
  }

  lemma NextIsNew(t: Trace, session: Session, plan: seq<OptimizationAction>)
    requires InEnter(t, session, plan) && |session.actions| < |plan|
    ensures var a := plan[|session.actions|];
            && Recordable(a) && IsWatched(Last(t), a)
            && forall i | 0 <= i < |session.actions| :: !SameTarget(session.actions[i].action, a)
  {
    hide Fine, Recordable, IsWatched;
    assert plan[|session.actions|] in plan;
  }

  lemma InEnterWhileQuiet(a: Trace, b: Trace, session: Session, plan: seq<OptimizationAction>)
    requires InEnter(a, session, plan) && Quiet(a, b)
    ensures InEnter(b, session, plan) && a <= b
  {
    hide Extends, Touches, Fine, Ready;
    QuietMeans(a, b);
    FineWhileQuiet(a, b);
    ReadyStays(Last(a), Last(b), plan);
  }

  lemma InEnterNext(a: Trace, b: Trace, session: Session, r: ExecutedAction, plan: seq<OptimizationAction>)
    requires InEnter(a, session, plan) && |session.actions| < |plan| && r.action == plan[|session.actions|]
    requires Fine(b) && Last(b).file == Some(session.(actions := session.actions + [r]))
    requires Last(b).watch == Last(a).watch && IsSettledOutcome(r.state)
    ensures InEnter(b, session.(actions := session.actions + [r]), plan)
  {
    hide Fine, Ready;
    ReadyStays(Last(a), Last(b), plan);
  }

  // ----- What the session file holds meanwhile -----

  /** The session file holds planned actions only. */
  predicate Follows(w: World, plan: seq<OptimizationAction>) {
    w.file.Some? && forall r | r in w.file.value.actions :: r.action in plan
  }

  ghost predicate FollowsSince(t: Trace, from: nat, plan: seq<OptimizationAction>) {
    forall i | from <= i < |t| :: Follows(t[i], plan)
  }

  lemma FollowsOn(a: Trace, b: Trace, from: nat, plan: seq<OptimizationAction>)
    requires a <= b && FollowsSince(a, from, plan) && FollowsSince(b, |a|, plan)
    ensures FollowsSince(b, from, plan)
  {
    hide Follows;
    forall i | from <= i < |b| ensures Follows(b[i], plan) {
      if i < |a| { assert b[i] == a[i]; }
    }
  }

  lemma FollowsSaved(a: Trace, b: Trace, session: Session, plan: seq<OptimizationAction>)
    requires a <= b && Follows(Last(a), plan) && forall r | r in session.actions :: r.action in plan
    requires forall i | |a| <= i < |b| :: b[i].file == Last(a).file || b[i].file == Some(session)
    ensures FollowsSince(b, |a|, plan)
  {
  }

  lemma FollowsKept(a: Trace, b: Trace, plan: seq<OptimizationAction>)
    requires a <= b && Follows(Last(a), plan) && forall i | |a| <= i < |b| :: b[i].file == Last(a).file
    ensures FollowsSince(b, |a|, plan) && Follows(Last(b), plan)
  {
  }

  lemma RecordsFollow(session: Session, plan: seq<OptimizationAction>)
    requires Records(session, plan)
    ensures forall r | r in session.actions :: r.action in plan
    ensures |session.actions| < |plan| ==>
              forall r, q | r in session.actions + [q] && q.action == plan[|session.actions|] :: r.action in plan
  {
  }

  lemma InEnterFollows(t: Trace, session: Session, plan: seq<OptimizationAction>)
    requires InEnter(t, session, plan)
    ensures Follows(Last(t), plan) && forall r | r in session.actions :: r.action in plan
  {
    hide Fine, Ready;
    RecordsFollow(session, plan);
  }

  /** The newest record on disk is about an action whose outcome is uncertain, for a cause that came up in between. */
  ghost predicate EndsUncertain(p: Moment, q: Moment) {
    var w := Last(q.trace);
    && w.file.Some? && w.file.value.actions != [] && Latest(w.file.value).state == Uncertain
    && HasCause(Latest(w.file.value), p, q)
  }

  lemma EndsUncertainSince(p: Moment, q: Moment, r: Moment)
    requires Since(p, q) && EndsUncertain(q, r) && Since(q, r)
    ensures EndsUncertain(p, r)
  {
    hide Since, HasCause;
    SinceItself(r);
    HasCauseWider(Latest(Last(r.trace).file.value), p, q, r, r);
  }

  /** Rejected for what was found out about the machine in between. */
  ghost predicate RejectedRightly(config: Config, r: ExecutedAction, p: Moment, q: Moment) {
    r.state == Rejected && exists s :: Judged(s, p, q) && !Validate(config, r.action, s)
  }

  /** The record is settled, and if the action did not come out as planned there is a cause for it outside. */
  ghost predicate AnsweredFor(config: Config, r: ExecutedAction, p: Moment, q: Moment) {
    IsSettledOutcome(r.state) && (HasCause(r, p, q) || RejectedRightly(config, r, p, q))
  }

  lemma AnsweredForWider(config: Config, x: ExecutedAction, p: Moment, q: Moment, r: Moment, s: Moment)
    requires Since(p, q) && Since(q, r) && Since(r, s) && AnsweredFor(config, x, q, r)
    ensures AnsweredFor(config, x, p, s)
  {
    hide Since, HasCause, Judged, Validate;
    if HasCause(x, q, r) {
      HasCauseWider(x, p, q, r, s);
    } else {
      var snapshot :| Judged(snapshot, q, r) && !Validate(config, x.action, snapshot);
      JudgedWider(snapshot, p, q, r, s);
    }
  }

  function Latest(session: Session): ExecutedAction
    requires session.actions != []
  {
    session.actions[|session.actions| - 1]
  }

  function With(session: Session, r: ExecutedAction): (next: Session)
    ensures next.actions != [] && Latest(next) == r && |next.actions| == |session.actions| + 1
  {
    session.(actions := session.actions + [r])
  }

  /** An action that no longer validates is recorded as rejected. */
  method RecordRejection(
      m: Machine, session: Session, ghost plan: seq<OptimizationAction>, record: ExecutedAction)
    returns (next: Session, ok: bool)
    requires m.Valid() && InEnter(m.trace, session, plan)
    requires |session.actions| < |plan| && record.action == plan[|session.actions|]
    requires record.action.kind.StopServiceTemporary? ==> record.originalServiceState == Running
    modifies m
    ensures m.Valid() && Fine(m.trace) && old(m.trace) <= m.trace && FollowsSince(m.trace, |old(m.trace)|, plan)
    ensures next.actions != [] && next == With(session, Latest(next)) && Latest(next).state == Rejected
    ensures Latest(next).action == record.action && Since(old(m.At()), m.At())
    ensures m.Now().log == old(m.Now().log)
    ensures ok ==> InEnter(m.trace, next, plan)
    ensures m.Failures() == old(m.Failures()) + if ok then 0 else 1
  {
    hide Fine, Backed, PointStorable, Ready, Recordable, Passed, SameTarget, FileAdvances, Follows, FollowsSince, Done,
         InEnter, Records;
    ghost var before := m.trace;
    InEnterMeans(before, session, plan);
    NextIsNew(before, session, plan);
    InEnterFollows(before, session, plan);
    var reason: string := *;
    var rejected := record.(
        state := Rejected, errorCode := Processes.ERROR_ACCESS_DISABLED_BY_POLICY, errorMessage := reason);
    RecordableIsStorable(rejected);
    FreshTargetIsClean(m.Now(), session.actions, rejected.action);
    RecordAdded(m.Now(), session.actions, rejected);
    OneRecordMore(session, rejected);
    next := With(session, rejected);
    ok := Persist(m, next);
    FollowsSaved(before, m.trace, next, plan);
    if ok {
      InEnterNext(before, m.trace, session, rejected, plan);
    }
  }

  datatype Turn = Proceed | Abandon

  /** Nothing has been done since `log`, and the plan to do `a` next is on disk. */
  predicate PlannedAt(w: World, session: Session, a: OptimizationAction, log: seq<Effect>) {
    && w.log == log && w.file.Some? && w.file.value.actions != []
    && w.file.value == With(session, Latest(w.file.value))
    && Latest(w.file.value).action == a && Latest(w.file.value).state == Planned
  }

  ghost predicate WrittenAhead(t: Trace, from: nat, session: Session, a: OptimizationAction, log: seq<Effect>) {
    exists k | from <= k < |t| :: PlannedAt(t[k], session, a, log)
  }

  lemma WrittenAheadNow(
      a: Trace, b: Trace, later: Trace, session: Session, record: ExecutedAction)
    requires a <= b <= later && Last(a).file == Some(session) && Last(b).file == Some(With(session, record))
    requires Last(b).log == Last(a).log && record.state == Planned
    ensures WrittenAhead(later, |a|, session, record.action, Last(a).log)
  {
    assert With(session, record) != session;
    assert |b| > |a|;
    assert PlannedAt(later[|b| - 1], session, record.action, Last(a).log);
  }

  /**
   * Persist, execute, persist again: before anything is done the planned record is on disk. An uncertain outcome, or a
   * failed save, ends the run.
   */
  method CarryOut(
      m: Machine, config: Config, session: Session, ghost plan: seq<OptimizationAction>, record: ExecutedAction,
      snapshot: SystemSnapshot)
    returns (next: Session, turn: Turn)
    requires m.Valid() && InEnter(m.trace, session, plan)
    requires |session.actions| < |plan| && record.action == plan[|session.actions|] && record.state == Planned
    requires record.action.kind.StopServiceTemporary? ==> record.originalServiceState == Running
    requires TruePayload(m.Now(), record) && Validate(config, record.action, snapshot)
    modifies m
    ensures m.Valid() && Fine(m.trace) && old(m.trace) <= m.trace && FollowsSince(m.trace, |old(m.trace)|, plan)
    ensures next.actions != [] && next == With(session, Latest(next)) && Latest(next).action == record.action
    ensures m.Now().log == old(m.Now().log)
            || WrittenAhead(m.trace, |old(m.trace)|, session, record.action, old(m.Now().log))
    ensures turn == Proceed ==> InEnter(m.trace, next, plan) && HasOutcome(Latest(next), old(m.At()), m.At())
    ensures Since(old(m.At()), m.At())
    ensures turn == Abandon ==> Troubled(old(m.At()), m.At()) || EndsUncertain(old(m.At()), m.At())
  {
    hide Fine, Backed, PointStorable, Ready, Passed, SameTarget, InEnter, FileAdvances, Follows, FollowsSince,
         WrittenAhead, Validate, HasOutcome, EndsUncertain, Since;
    ghost var before, began := m.trace, m.At();
    var a := record.action;
    InEnterMeans(before, session, plan);
    NextIsNew(before, session, plan);
    InEnterFollows(before, session, plan);
    RecordableIsStorable(record);
    hide Recordable;
    RecordAdded(m.Now(), session.actions, record);
    OneRecordMore(session, record);
    next := With(session, record);
    var saved := Persist(m, next);
    FollowsSaved(before, m.trace, next, plan);
    if !saved {
      return next, Abandon;
    }
    ghost var planned, noted := m.trace, m.At();
    BackedWhenPassed(Last(before), Last(planned), session.actions);
    PlanFollows(planned, plan, next);
    var result: ExecutedAction;
    result, turn := ExecuteAndSave(m, config, session, plan, record, snapshot);
    FollowsOn(planned, m.trace, |before|, plan);
    WrittenAheadNow(before, planned, m.trace, session, record);
    next := With(session, result);
    SinceOn(began, noted, m.At());
    if turn == Proceed {
      InEnterNext(before, m.trace, session, result, plan);
      HasOutcomeSince(result, began, noted, m.At());
    } else if EndsUncertain(noted, m.At()) {
      EndsUncertainSince(began, noted, m.At());
    } else {
      SinceItself(m.At());
      Wider(began, noted, m.At(), m.At());
    }
  }

  lemma PlanFollows(t: Trace, plan: seq<OptimizationAction>, session: Session)
    requires Last(t).file == Some(session) && forall r | r in session.actions :: r.action in plan
    ensures Follows(Last(t), plan)
  {
  }

  /** The outcome of an action that still validated: nothing is left open, and what was not done has its cause. */
  ghost predicate HasOutcome(r: ExecutedAction, p: Moment, q: Moment) {
    IsOutcome(r.action.kind, r.state) && r.state != Uncertain && HasCause(r, p, q)
  }

  lemma HasOutcomeSince(x: ExecutedAction, p: Moment, q: Moment, r: Moment)
    requires Since(p, q) && Since(q, r) && HasOutcome(x, q, r)
    ensures HasOutcome(x, p, r)
  {
    hide Since, HasCause;
    SinceItself(r);
    HasCauseWider(x, p, q, r, r);
  }

  /** With the planned record on disk: execute, and persist the outcome in its place. */
  method ExecuteAndSave(
      m: Machine, config: Config, session: Session, ghost plan: seq<OptimizationAction>, record: ExecutedAction,
      snapshot: SystemSnapshot)
    returns (result: ExecutedAction, turn: Turn)
    requires m.Valid() && Fine(m.trace) && Follows(m.Now(), plan)
    requires m.Now().file == Some(With(session, record))
    requires Backed(m.Now(), session.actions) && PointStorable(session.baseline)
    requires Recordable(record.action) && IsWatched(m.Now(), record.action) && record.state == Planned
    requires forall i | 0 <= i < |session.actions| :: !SameTarget(session.actions[i].action, record.action)
    requires Validate(config, record.action, snapshot)
    modifies m
    ensures m.Valid() && Fine(m.trace) && old(m.trace) <= m.trace && FollowsSince(m.trace, |old(m.trace)|, plan)
    ensures turn == Proceed ==>
              && m.Now().file == Some(With(session, result))
              && IsSettledOutcome(result.state) && HasOutcome(result, old(m.At()), m.At())
    ensures Since(old(m.At()), m.At())
    ensures turn == Abandon ==> Troubled(old(m.At()), m.At()) || EndsUncertain(old(m.At()), m.At())
    ensures result.action == record.action && m.Now().watch == old(m.Now().watch)
  {
    hide Fine, Backed, PointStorable, Passed, SameTarget, FileAdvances, FollowsSince, Validate, Recordable, Follows,
         HasCause, IsWatched, Sane, Since, Backed;
    ghost var planned, began := m.trace, m.At();
    result := ExecuteBacked(m, config, session, record, snapshot);
    ghost var executed, done := m.trace, m.At();
    FollowsKept(planned, executed, plan);
    var next := With(session, result);
    OutcomeAdvances(session, record, result);
    var saved := Persist(m, next);
    ghost var noted := m.At();
    SinceItself(began);
    SinceOn(began, done, noted);
    HasCauseWider(result, began, began, done, noted);
    SameActionsFollow(session, record, result, plan, Last(planned));
    FollowsSaved(executed, m.trace, next, plan);
    FollowsOn(executed, m.trace, |planned|, plan);
    if !saved {
      Wider(began, done, noted, noted) by { SinceItself(noted); }
      return result, Abandon;
    }
    if result.state == Uncertain {
      GiveUp(m, next, plan);
      FollowsOn(noted.trace, m.trace, |planned|, plan);
      SinceOn(began, noted, m.At());
      HasCauseWider(result, began, began, noted, m.At());
      return result, Abandon;
    }
    turn := Proceed;
  }

  /** After an uncertain outcome, or when the state cannot be refreshed: Safe Mode, with the same records. */
  method GiveUp(m: Machine, session: Session, ghost plan: seq<OptimizationAction>)
    requires m.Valid() && Fine(m.trace) && m.Now().file == Some(session)
    requires Backed(m.Now(), session.actions) && PointStorable(session.baseline)
    requires forall r | r in session.actions :: r.action in plan
    modifies m
    ensures m.Valid() && Fine(m.trace) && old(m.trace) <= m.trace && FollowsSince(m.trace, |old(m.trace)|, plan)
    ensures m.Now().file.Some? && m.Now().file.value.actions == session.actions
    ensures Since(old(m.At()), m.At()) && m.Now().watch == old(m.Now().watch)
  {
    hide Fine, Backed, PointStorable, Passed, FileAdvances, FollowsSince;
    ghost var before := m.trace;
    PlanFollows(before, plan, session);
    hide Follows;
    FileAdvancesItself(session, SafeMode);
    var saved := Persist(m, session.(state := SafeMode));
    FollowsSaved(before, m.trace, session.(state := SafeMode), plan);
  }

  lemma SameActionsFollow(
      session: Session, record: ExecutedAction, result: ExecutedAction, plan: seq<OptimizationAction>, w: World)
    requires w.file == Some(With(session, record)) && Follows(w, plan) && result.action == record.action
    ensures forall r | r in With(session, result).actions :: r.action in plan
  {
    assert With(session, record).actions[|session.actions|] == record;
    forall r | r in With(session, result).actions ensures r.action in plan {
      if r in session.actions { assert r in With(session, record).actions; }
    }
  }

  lemma OutcomeAdvances(session: Session, record: ExecutedAction, result: ExecutedAction)
    requires record.state == Planned && result.action == record.action
    ensures FileAdvances(Some(With(session, record)), With(session, result))
  {
    assert With(session, result).actions == With(session, record).actions[|session.actions| := result];
    OneRecordAdvances(With(session, record), |session.actions|, result);
  }

  /** Executes; whatever happened, the outcome in memory backs the machine as well as the planned record on disk. */
  method ExecuteBacked(
      m: Machine, config: Config, session: Session, record: ExecutedAction, snapshot: SystemSnapshot)
    returns (result: ExecutedAction)
    requires m.Valid() && Fine(m.trace)
    requires m.Now().file == Some(With(session, record))
    requires Backed(m.Now(), session.actions)
    requires Recordable(record.action) && IsWatched(m.Now(), record.action) && record.state == Planned
    requires forall i | 0 <= i < |session.actions| :: !SameTarget(session.actions[i].action, record.action)
    requires Validate(config, record.action, snapshot)
    modifies m
    ensures m.Valid() && Fine(m.trace) && old(m.trace) <= m.trace
    ensures forall i | |old(m.trace)| <= i < |m.trace| :: m.trace[i].file == old(m.Now()).file
    ensures m.Now().file == old(m.Now()).file && m.Now().watch == old(m.Now().watch)
    ensures result.action == record.action && Since(old(m.At()), m.At())
    ensures IsOutcome(record.action.kind, result.state) && HasCause(result, old(m.At()), m.At())
    ensures Backed(m.Now(), session.actions + [result])
  {
    hide Fine, Backed, SameTarget, Recordable, Extends, Validate, Told, Done, AllDelivered, NoRepeat, Quiet, Touches,
         Sane, Justified, StepOk, Since, HasCause, Rounds;
    ghost var planned := m.trace;
    RecordableHasStart(record.action);
    ghost var done: seq<Effect>;
    result, done := Execute(m, config, record.action, snapshot);
    OutcomeMayBecome(planned, m.trace, session.actions, record, result, record.action);
    ExecutedStaysBacked(planned, m.trace, session.actions, record, result, done);
    ExtendsMeans(planned, m.trace, ActionScope(record.action));
    FilesKept(planned, m.trace, ActionScope(record.action));
  }

  lemma RecordableHasStart(a: OptimizationAction)
    requires Recordable(a)
    ensures a.kind.StopServiceTemporary? || a.startTime != 0
  {
  }

  lemma FilesKept(a: Trace, b: Trace, scope: Scope)
    requires Extends(a, b, scope)
    ensures forall i | |a| <= i < |b| :: b[i].file == Last(a).file
  {
    assert forall i | |a| <= i < |b| :: Touches(Last(a), b[i], scope);
  }

  /** The outcome can be stored, and if it is pending it carries the value to go back to. */
  lemma OutcomeMayBecome(
      a: Trace, b: Trace, earlier: seq<ExecutedAction>, planned: ExecutedAction, result: ExecutedAction,
      action: OptimizationAction)
    requires Recordable(action) && result.action == action && IsOutcome(action.kind, result.state)
    requires Backed(Last(a), earlier) && IsWatched(Last(a), action)
    requires forall i | 0 <= i < |earlier| :: !SameTarget(earlier[i].action, action)
    requires Extends(a, b, ActionScope(action))
    requires action.kind.SetPriorityClass? && result.state == Applied && Live(Last(b), Target(action)) ==>
               && Live(Last(a), Target(action))
               && result.originalPriority == Last(a).procs[action.pid].priority
    requires action.kind.SetPriorityClass? && result.state == Applied ==> result.originalPriority != 0
    requires action.kind.StopServiceTemporary? ==> result.originalServiceState == action.sourceServiceState
    ensures ActionStorable(result) && Regular(result)
    ensures Pending(result.state) ==> TruePayload(Last(b), result)
    ensures Pending(result.state) || result.state == Failed || result.state == Rejected
            || !IsReversible(result.action.kind)
  {
    RecordableIsStorable(result);
    hide ActionStorable;
    FreshTargetIsClean(Last(a), earlier, action);
    ExtendsMeans(a, b, ActionScope(action));
    hide Extends, Touches, Backed, SameTarget, Done;
    if action.kind.SetPriorityClass? && Live(Last(b), Target(action)) {
      WatchedStays(Last(a), Last(b), ActionScope(action), Target(action));
    }
  }

  /**
   * One turn of the loop over the plan: an action that no longer validates is recorded as rejected and nothing is done;
   * any other is carried out, after its planned record was written.
   */
  method EnterStep(
      m: Machine, config: Config, session: Session, plan: seq<OptimizationAction>, snapshot: SystemSnapshot)
    returns (next: Session, turn: Turn)
    requires m.Valid() && InEnter(m.trace, session, plan) && |session.actions| < |plan|
    requires Faithful(m.Now(), snapshot)
    modifies m
    ensures m.Valid() && Fine(m.trace) && old(m.trace) <= m.trace && FollowsSince(m.trace, |old(m.trace)|, plan)
    ensures Since(old(m.At()), m.At())
    ensures next.actions != [] && next == With(session, Latest(next)) && Latest(next).action == plan[|session.actions|]
    ensures turn == Proceed ==> InEnter(m.trace, next, plan)
    ensures !Validate(config, plan[|session.actions|], snapshot) ==>
              m.Now().log == old(m.Now().log) && Latest(next).state == Rejected
    ensures m.Now().log == old(m.Now().log)
            || WrittenAhead(m.trace, |old(m.trace)|, session, plan[|session.actions|], old(m.Now().log))
    ensures turn == Proceed && Validate(config, plan[|session.actions|], snapshot) ==>
              HasOutcome(Latest(next), old(m.At()), m.At())
    ensures turn == Abandon ==> Troubled(old(m.At()), m.At()) || EndsUncertain(old(m.At()), m.At())
  {
    var a := plan[|session.actions|];
    assert Honest(m.Now(), snapshot);
    hide Backed, InEnter, SameTarget, Validate, FollowsSince, WrittenAhead, HasOutcome, Fine, Honest, IsWatched,
         PriorityKnown, TruePayload, EndsUncertain, PrioritiesKnown, Since;
    InEnterMeans(m.trace, session, plan);
    NextIsNew(m.trace, session, plan);
    var record := PlannedRecord(a, snapshot);
    assert a.kind.StopServiceTemporary? ==> record.originalServiceState == Running;
    hide Recordable;
    if !Validate(config, a, snapshot) {
      var ok: bool;
      next, ok := RecordRejection(m, session, plan, record);
      return next, if ok then Proceed else Abandon;
    }
    PlannedPayloadIsTrue(config, m.Now(), session.actions, record, snapshot);
    FaithfulKnowsPriorities(config, m.Now(), snapshot, a);
    next, turn := CarryOut(m, config, session, plan, record, snapshot);
  }
}
