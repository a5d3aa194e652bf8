/** Starting a session: EnterCodingMode, from the baseline to the last action of the plan. */
module Entering {
  import opened Types
  import opened JsonText
  import opened SessionModel
  import opened Policy
  import opened Planner
  import opened Worlds
  import opened Moments
  import opened Recoverable
  import opened Machines
  import opened Executor
  import opened SessionManager
  import opened Enacting
  import BenchmarkPoints

  // ----- The whole command -----

  datatype CliOptions = CliOptions(baselineSeconds: int, dryRun: bool, confirmServiceActions: bool)

  method CaptureHistory(m: Machine, samples: nat) returns (window: Option<seq<SystemSnapshot>>)
    requires m.Valid()
    modifies m
    ensures m.Valid() && Quiet(old(m.trace), m.trace)
    ensures window.Some? ==>
              |window.value| == samples && (samples > 0 ==> Faithful(m.Now(), window.value[samples - 1]))
    ensures window.None? ==> m.Failures() > old(m.Failures())
    ensures Since(old(m.At()), m.At()) && (window.Some? ==> AllSampled(window.value, old(m.At()), m.At()))
  {
    QuietItself(m.trace);
    SinceItself(m.At());
    hide Extends, Touches, Sane, Faithful, Quiet, Heard;
    ghost var before := m.At();
    var found: seq<SystemSnapshot> := [];
    for i := 0 to samples
      invariant m.Valid() && Quiet(old(m.trace), m.trace) && m.Failures() >= old(m.Failures())
      invariant |found| == i && (i > 0 ==> Faithful(m.Now(), found[i - 1]))
      invariant Since(before, m.At()) && AllSampled(found, before, m.At())
    {
      ghost var entered := m.At();
      var snapshot := m.Sample();
      QuietOn(before.trace, entered.trace, m.trace);
      SinceOn(before, entered, m.At());
      if snapshot.None? {
        return None;
      }
      AnotherSampled(found, snapshot.value, before, entered, m.At());
      hide AllSampled;
      found := found + [snapshot.value];
    }
    return Some(found);
  }

  /** The window holds what was sampled between the two moments. */
  ghost predicate AllSampled(window: seq<SystemSnapshot>, p: Moment, q: Moment) {
    forall s | s in window :: Heard(p, q, Sampled(s))
  }

  lemma AllSampledWider(window: seq<SystemSnapshot>, p: Moment, q: Moment, r: Moment, s: Moment)
    requires Since(p, q) && Since(q, r) && Since(r, s) && AllSampled(window, q, r)
    ensures AllSampled(window, p, s)
  {
    hide Since, Heard;
    Wider(p, q, r, s);
  }

  lemma AnotherSampled(window: seq<SystemSnapshot>, x: SystemSnapshot, p: Moment, q: Moment, r: Moment)
    requires Since(p, q) && Since(q, r) && AllSampled(window, p, q) && Heard(q, r, Sampled(x))
    ensures AllSampled(window + [x], p, r)
  {
    hide Since, Heard;
    SinceItself(p);
    SinceItself(r);
    AllSampledWider(window, p, p, q, r);
    Wider(p, q, r, r);
  }

  predicate HasMediumRisk(actions: seq<OptimizationAction>) {
    exists a | a in actions :: a.risk != Safe && a.risk != ActionRisk.Low
  }

  lemma PlannedStopsAreMedium(config: Config, s: SystemSnapshot, k: nat)
    requires k < |PlanOf(config, s)| && PlanOf(config, s)[k].kind.StopServiceTemporary?
    ensures HasMediumRisk(PlanOf(config, s))
  {
    hide ProposeForProcess, ProposeForService, Actions, ContextOf;
    var context := ContextOf(s, config.remoteDebugPorts);
    var processes := Actions(ProcessProposals(config, s));
    var at := ActionsKeepOrder(ProcessProposals(config, s));
    var from := ActionsKeepOrder(ServiceProposals(config, s));
    if k < |processes| {
      ProposedForProcess(config, context, s, s.processes[at[k]]);
    } else {
      ProposedForService(config, context, s.services[from[k - |processes|]]);
      assert PlanOf(config, s)[k].risk == ActionRisk.Medium;
    }
  }

  method CountMediumRisk(actions: seq<OptimizationAction>) returns (mediumRiskActions: nat)
    ensures mediumRiskActions != 0 <==> HasMediumRisk(actions)
  {
    var safeActions, lowRiskActions := 0, 0;
    for i := 0 to |actions|
      invariant safeActions + lowRiskActions <= i
      invariant safeActions + lowRiskActions == i <==> !HasMediumRisk(actions[..i])
    {
      assert actions[..i + 1] == actions[..i] + [actions[i]];
      if actions[i].risk == Safe {
        safeActions := safeActions + 1;
      }
      if actions[i].risk == ActionRisk.Low {
        lowRiskActions := lowRiskActions + 1;
      }
    }
    assert actions[..|actions|] == actions;
    return |actions| - safeActions - lowRiskActions;
  }

  /** From here on the targets of the plan are the session's. */
  lemma BeginKeepsFine(a: Trace, watch: Watch)
    requires Fine(a) && Last(a).file.None? && watch.processes <= Last(a).seen
    ensures Fine(a + [Last(a).(watch := watch, log := [])])
  {
    var w := Last(a);
    var v := w.(watch := watch, log := []);
    FineMeansGood(a);
    forall pid | pid in v.procs ensures PriorityCovered(v, [], pid) {
      assert PriorityCovered(w, [], pid);
    }
    hide Authorized;
    FineStep(a, v);
  }

  /** Carries out a plan whose session file exists; stops early only on a failing call or an uncertain outcome. */
  method RunPlan(
      m: Machine, config: Config, session: Session, plan: seq<OptimizationAction>, first: SystemSnapshot,
      ghost began: Moment)
    returns (exit: int)
    requires m.Valid() && InEnter(m.trace, session, plan) && session.actions == [] && LowerCaseNames(config)
    requires Faithful(m.Now(), first) && Since(began, m.At()) && Judged(first, began, m.At())
    modifies m
    ensures m.Valid() && Fine(m.trace) && old(m.trace) <= m.trace && (exit == 0 || exit == 2)
    ensures FollowsSince(m.trace, |old(m.trace)|, plan) && Since(old(m.At()), m.At()) && Since(began, m.At())
    ensures exit == 0 ==> CarriedOut(config, plan, began, m.At())
    ensures exit == 2 ==> StoppedFor(config, began, m.At())
  {
    hide Extends, Touches, Sane, Quiet, Faithful, Fine, Ready, Records, LowerCaseNames, InEnter, Backed, PointStorable,
         FollowsSince, Follows, Validate, WrittenAhead, HasOutcome, FileAdvances, EndsUncertain, Lists, Since, Judged,
         AllAccounted, StoppedFor;
    ghost var before, first0 := m.trace, m.At();
    var current, snapshot := session, first;
    InEnterMeans(m.trace, current, plan);
    FollowsNothing(m.trace, plan);
    SinceItself(first0);
    NothingToAccount(config, began, first0);
    for k := 0 to |plan|
      invariant m.Valid() && InEnter(m.trace, current, plan) && |current.actions| == k && before <= m.trace
      invariant FollowsSince(m.trace, |before|, plan) && Since(first0, m.At()) && Since(began, m.At())
      invariant k == 0 ==> Faithful(m.Now(), snapshot) && Judged(snapshot, began, m.At())
      invariant AllAccounted(config, current.actions, began, m.At())
    {
      ghost var entered, turned := m.trace, m.At();
      SinceItself(turned);
      SinceItself(began);
      if k != 0 {
        var refreshed := CaptureActionState(m, config);
        SinceOn(first0, turned, m.At());
        SinceOn(began, turned, m.At());
        SinceItself(m.At());
        QuietFollows(entered, m.trace, current, plan);
        FollowsOn(entered, m.trace, |before|, plan);
        InEnterWhileQuiet(entered, m.trace, current, plan);
        if refreshed.None? {
          InEnterMeans(m.trace, current, plan);
          InEnterFollows(m.trace, current, plan);
          ghost var asked := m.At();
          GiveUp(m, current, plan);
          FollowsOn(asked.trace, m.trace, |before|, plan);
          SinceOn(began, asked, m.At());
          SinceOn(first0, asked, m.At());
          WrongStops(config, began, turned, asked, m.At());
          return 2;
        }
        snapshot := refreshed.value;
        JudgedWider(snapshot, began, turned, m.At(), m.At());
      }
      ghost var ready, was := m.At(), current;
      var turn: Turn;
      current, turn := EnterStep(m, config, current, plan, snapshot);
      FollowsOn(ready.trace, m.trace, |before|, plan);
      SinceOn(began, ready, m.At());
      SinceOn(first0, ready, m.At());
      if turn == Abandon {
        AbandonedFor(config, began, ready, m.At());
        return 2;
      }
      InEnterMeans(m.trace, current, plan);
      StepAccounted(config, was, current, plan[k], snapshot, began, turned, ready, m.At());
    }
    InEnterMeans(m.trace, current, plan);
    return 0;
  }

  /** Every record is settled, and each that did not come out as planned has its cause. */
  ghost predicate AllAccounted(config: Config, records: seq<ExecutedAction>, p: Moment, q: Moment) {
    forall r | r in records :: AnsweredFor(config, r, p, q)
  }

  lemma NothingToAccount(config: Config, p: Moment, q: Moment)
    ensures AllAccounted(config, [], p, q)
  {
  }

  /** What ends the command early: an uncertain outcome, a failed call, or a service without a name. */
  ghost predicate StoppedFor(config: Config, p: Moment, q: Moment) {
    EndsUncertain(p, q) || WentWrong(config, Last(p.trace), Last(q.trace))
  }

  lemma WrongStops(config: Config, p: Moment, q: Moment, r: Moment, s: Moment)
    requires Since(p, q) && Since(r, s) && WentWrong(config, Last(q.trace), Last(r.trace))
    ensures StoppedFor(config, p, s)
  {
    hide EndsUncertain;
  }

  lemma AbandonedFor(config: Config, p: Moment, q: Moment, r: Moment)
    requires Since(p, q) && Since(q, r) && (Troubled(q, r) || EndsUncertain(q, r))
    ensures StoppedFor(config, p, r)
  {
    hide EndsUncertain;
    if EndsUncertain(q, r) { EndsUncertainSince(p, q, r); }
  }

  /** One record more, accounted for by the turn that made it. */
  lemma StepAccounted(
      config: Config, was: Session, now: Session, a: OptimizationAction, snapshot: SystemSnapshot,
      p: Moment, q: Moment, r: Moment, s: Moment)
    requires Since(p, q) && Since(q, r) && Since(r, s) && AllAccounted(config, was.actions, p, q)
    requires now.actions != [] && now == With(was, Latest(now)) && Latest(now).action == a
    requires Judged(snapshot, p, r)
    requires Validate(config, a, snapshot) ==> HasOutcome(Latest(now), r, s)
    requires !Validate(config, a, snapshot) ==> Latest(now).state == Rejected
    ensures AllAccounted(config, now.actions, p, s)
  {
    hide Since, Validate, Judged, HasCause, AnsweredFor, HasOutcome;
    SinceOn(q, r, s);
    SinceOn(p, q, r);
    SinceItself(p);
    SinceItself(s);
    LatestAccounted(config, Latest(now), snapshot, p, r, s);
    forall x | x in now.actions ensures AnsweredFor(config, x, p, s) {
      if x in was.actions {
        AnsweredForWider(config, x, p, p, q, s);
      }
    }
  }

  lemma LatestAccounted(
      config: Config, x: ExecutedAction, snapshot: SystemSnapshot, p: Moment, q: Moment, r: Moment)
    requires Since(p, q) && Since(q, r) && Judged(snapshot, p, q)
    requires Validate(config, x.action, snapshot) ==> HasOutcome(x, q, r)
    requires !Validate(config, x.action, snapshot) ==> x.state == Rejected
    ensures AnsweredFor(config, x, p, r)
  {
    hide Since, Validate, Judged, HasCause;
    if Validate(config, x.action, snapshot) {
      HasOutcomeSince(x, p, q, r);
    } else {
      SinceItself(p);
      JudgedWider(snapshot, p, p, q, r);
    }
  }

  lemma FollowsNothing(t: Trace, plan: seq<OptimizationAction>)
    ensures FollowsSince(t, |t|, plan)
  {
  }

  lemma QuietFollows(a: Trace, b: Trace, session: Session, plan: seq<OptimizationAction>)
    requires InEnter(a, session, plan) && Quiet(a, b)
    ensures a <= b && FollowsSince(b, |a|, plan) && Last(a).failures <= Last(b).failures
  {
    QuietMeans(a, b);
    InEnterFollows(a, session, plan);
    QuietFiles(a, b);
  }

  // ----- Confirmation -----

  /** From the moment `from` on, no stop is in the log. */
  ghost predicate NeverStopped(t: Trace, from: nat) {
    forall i, name | from <= i < |t| :: StopAccepted(name) !in t[i].log
  }

  /** Every stop in the log of a later world was there before. */
  ghost predicate GainsNoStop(a: Trace, b: Trace) {
    forall i, name | |a| <= i < |b| && StopAccepted(name) in b[i].log :: StopAccepted(name) in Last(a).log
  }

  /** Whatever was done has a record, and records follow the plan. */
  lemma LoggedStopIsPlanned(w: World, plan: seq<OptimizationAction>, name: string)
    requires Good(w) && Follows(w, plan) && StopAccepted(name) in w.log
    ensures exists a | a in plan :: a.kind.StopServiceTemporary?
  {
    hide NoRepeat, Covered, PointStorable, AllStorable, DistinctRecords, Told, TruePayload;
    var r :| r in w.file.value.actions && DoneFor(StopAccepted(name), r.action);
    assert r.action in plan;
  }

  /** Without stops in the plan no stop is ever accepted. */
  lemma StopsArePlanned(t: Trace, from: nat, plan: seq<OptimizationAction>)
    requires Fine(t) && FollowsSince(t, from, plan) && forall a | a in plan :: !a.kind.StopServiceTemporary?
    ensures NeverStopped(t, from)
  {
    forall i, name | from <= i < |t| ensures StopAccepted(name) !in t[i].log {
      assert Good(t[i]) && Follows(t[i], plan);
      hide Good, Follows;
      if StopAccepted(name) in t[i].log {
        LoggedStopIsPlanned(t[i], plan, name);
      }
    }
  }

  /** The number of sampling intervals that cover a span of time. */
  function SamplesIn(spanMs: nat, intervalMs: nat): (n: nat)
    requires 0 < intervalMs
    ensures spanMs > 0 ==> 0 < n <= spanMs && (n - 1) * intervalMs < spanMs <= n * intervalMs
  {
    if spanMs <= intervalMs then (if spanMs == 0 then 0 else 1) else 1 + SamplesIn(spanMs - intervalMs, intervalMs)
  }

  /** What the planner makes of a snapshot, with every stop marked as confirmed. */
  predicate IsPlan(config: Config, s: SystemSnapshot, plan: seq<OptimizationAction>) {
    |plan| == |PlanOf(config, s)| && forall i | 0 <= i < |plan| :: plan[i] == Confirmed(PlanOf(config, s)[i])
  }

  predicate ValidDuration(options: CliOptions) {
    10 <= options.baselineSeconds <= 600
  }

  /** The plan was made from a snapshot that was true at the moment `at`, with exactly the configured services in it. */
  ghost predicate PlannedFrom(
      t: Trace, from: int, config: Config, planning: Option<SystemSnapshot>, at: nat, plan: seq<OptimizationAction>)
  {
    planning.Some? ==>
      && from <= at < |t| && Faithful(t[at], planning.value)
      && Lists(planning.value.services, config.profile.allowServiceStop)
      && IsPlan(config, planning.value, plan)
  }

  predicate NeedsConfirmation(config: Config, options: CliOptions, planning: Option<SystemSnapshot>) {
    && planning.Some? && !options.dryRun && !options.confirmServiceActions
    && HasMediumRisk(PlanOf(config, planning.value))
  }

  /** Every action of the plan has a record on disk with a settled outcome, and a cause if it is not the planned one. */
  ghost predicate CarriedOut(config: Config, plan: seq<OptimizationAction>, p: Moment, q: Moment) {
    var w := Last(q.trace);
    && w.file.Some? && InEnter(q.trace, w.file.value, plan) && |w.file.value.actions| == |plan|
    && AllAccounted(config, w.file.value.actions, p, q)
  }

  /** What the exit code says of a run that found no session in its way. */
  ghost predicate ExitMeans(
      config: Config, options: CliOptions, plan: seq<OptimizationAction>, exit: int, p: Moment, q: Moment)
  {
    var w, v := Last(p.trace), Last(q.trace);
    && (exit == 0 && !options.dryRun ==> CarriedOut(config, plan, p, q))
    && (exit == 1 ==> v.file.None? && (v.log == w.log || v.log == []) && WentWrong(config, w, v))
    && (exit == 2 ==> StoppedFor(config, p, q))
    && (options.dryRun || exit == 64 ==> Quiet(p.trace, q.trace))
  }

  /** From the moment `from` on, every session file has the baseline that describes the window. */
  ghost predicate FilesDescribe(t: Trace, from: nat, window: seq<SystemSnapshot>, render: real -> Double) {
    window != [] &&
    forall i | from <= i < |t| && t[i].file.Some? ::
      BenchmarkPoints.PointOf(t[i].file.value.baseline, window, render)
  }

  /** The window was sampled between the two moments, and the plan was made from its last snapshot. */
  ghost predicate WindowSeen(
      window: seq<SystemSnapshot>, planning: Option<SystemSnapshot>, options: CliOptions, intervalMs: u32,
      p: Moment, q: Moment)
  {
    planning.Some? ==>
      && ValidDuration(options) && 0 < intervalMs && |window| == SamplesIn(options.baselineSeconds * 1000, intervalMs)
      && window != [] && AllSampled(window, p, q)
      && planning.value
         == window[|window| - 1].(services := planning.value.services, serviceComplete := true)
      && AllDescribed(planning.value.services, p, q)
  }

  /**
   * EnterCodingMode. Every moment of the run can be recovered from. The plan is what the planner makes of a faithful
   * snapshot, the last of the baseline window, with exactly the configured services in it. With 0 (and no dry run) each
   * planned action has a record with its outcome, and a cause if it did not come out as planned; with 1 or 64 nothing
   * was done; nothing is stopped unless the user confirmed it. Every session file has the baseline that describes the
   * window. Unless a call fails, the command only stops early for an existing session or an uncertain outcome.
   */
  method EnterCodingMode(m: Machine, config: Config, intervalMs: u32, options: CliOptions, render: real -> Double)
    returns (
      exit: int, ghost plan: seq<OptimizationAction>, ghost planning: Option<SystemSnapshot>, ghost at: nat,
      ghost window: seq<SystemSnapshot>)
    requires m.Valid() && Fine(m.trace) && LowerCaseNames(config) && intervalMs > 0
    modifies m
    ensures m.Valid() && Fine(m.trace) && old(m.trace) <= m.trace && Since(old(m.At()), m.At())
    ensures exit == 0 || exit == 1 || exit == 2 || exit == 64
    ensures PlannedFrom(m.trace, |old(m.trace)| - 1, config, planning, at, plan) && (planning.None? ==> exit != 0)
    ensures if old(m.Now()).file.Some? then exit in {2, 64} && Quiet(old(m.trace), m.trace)
            else ExitMeans(config, options, plan, exit, old(m.At()), m.At())
    ensures WindowSeen(window, planning, options, intervalMs, old(m.At()), m.At())
    ensures planning.Some? ==> FilesDescribe(m.trace, |old(m.trace)|, window, render)
    ensures exit == 64 <==> !ValidDuration(options) || NeedsConfirmation(config, options, planning)
    ensures !options.confirmServiceActions ==> GainsNoStop(old(m.trace), m.trace)
  {
    hide Extends, Touches, Fine, Quiet, Faithful, Lists, Queried, DistinctServices, LowerCaseNames, PlanOf, IsPlan,
         HasMediumRisk, InEnter, EndsUncertain, WentWrong, PlannedFrom, NeedsConfirmation, CarriedOut, GainsNoStop,
         Since, WindowSeen, FilesDescribe, AllSampled, AllDescribed, ExitMeans, StoppedFor;
    ghost var before, began := m.trace, m.At();
    QuietItself(before);
    SinceItself(began);
    QuietStopsNothing(before, before);
    NothingPlanned(before, |before| - 1, config, options, |before| - 1);
    plan, planning, at, window := [], None, |before| - 1, [];
    NoWindow(options, intervalMs, began);
    if options.baselineSeconds < 10 || options.baselineSeconds > 600 {
      NothingBegun(config, options, 64, began, began);
      return 64, [], None, at, [];
    }
    var present := m.HasActiveSession();
    QuietMeans(before, m.trace);
    FineWhileQuiet(before, m.trace);
    QuietStopsNothing(before, m.trace);
    NothingPlanned(m.trace, |before| - 1, config, options, at);
    if present {
      PresentFails(config, options, began, m.At());
      return 2, [], None, at, [];
    }
    exit, plan, planning, at, window := EnterAnew(m, config, intervalMs, options, render, began);
  }

  lemma NothingBegun(config: Config, options: CliOptions, exit: int, p: Moment, q: Moment)
    requires Quiet(p.trace, q.trace) && (exit == 64 || (exit == 2 && Troubled(p, q)))
    ensures ExitMeans(config, options, [], exit, p, q)
  {
    hide EndsUncertain, Quiet;
  }

  /** A session that is reported although there is none means a failed call. */
  lemma PresentFails(config: Config, options: CliOptions, p: Moment, q: Moment)
    requires Quiet(p.trace, q.trace)
    requires Last(q.trace).failures == Last(p.trace).failures + if Last(q.trace).file.None? then 1 else 0
    ensures Last(p.trace).file.None? ==> ExitMeans(config, options, [], 2, p, q)
  {
    QuietMeans(p.trace, q.trace);
    if Last(p.trace).file.None? { NothingBegun(config, options, 2, p, q); }
  }

  lemma NoWindow(options: CliOptions, intervalMs: u32, p: Moment)
    ensures forall q :: WindowSeen([], None, options, intervalMs, p, q)
  {
  }

  lemma NothingPlanned(t: Trace, from: int, config: Config, options: CliOptions, at: nat)
    ensures PlannedFrom(t, from, config, None, at, []) && !NeedsConfirmation(config, options, None)
  {
    hide IsPlan, Faithful, Lists, HasMediumRisk, PlanOf;
  }

  method SampleCount(options: CliOptions, intervalMs: u32) returns (samples: nat)
    requires ValidDuration(options) && intervalMs > 0
    ensures 0 < samples < 0x1_0000_0000_0000_0000 && samples == SamplesIn(options.baselineSeconds * 1000, intervalMs)
  {
    samples := SamplesIn(options.baselineSeconds * 1000, intervalMs);
  }

  /** The rest of EnterCodingMode, without a session in the way. */
  method EnterAnew(
      m: Machine, config: Config, intervalMs: u32, options: CliOptions, render: real -> Double, ghost began: Moment)
    returns (
      exit: int, ghost plan: seq<OptimizationAction>, ghost planning: Option<SystemSnapshot>, ghost at: nat,
      ghost window: seq<SystemSnapshot>)
    requires m.Valid() && Fine(m.trace) && LowerCaseNames(config) && intervalMs > 0 && ValidDuration(options)
    requires Quiet(began.trace, m.trace) && m.Now().file.None? && Since(began, m.At())
    modifies m
    ensures m.Valid() && Fine(m.trace) && began.trace <= m.trace && Since(began, m.At())
    ensures exit == 0 || exit == 1 || exit == 2 || exit == 64
    ensures PlannedFrom(m.trace, |began.trace| - 1, config, planning, at, plan) && (planning.None? ==> exit != 0)
    ensures ExitMeans(config, options, plan, exit, began, m.At())
    ensures exit == 64 <==> NeedsConfirmation(config, options, planning)
    ensures !options.confirmServiceActions ==> GainsNoStop(began.trace, m.trace)
    ensures WindowSeen(window, planning, options, intervalMs, began, m.At())
    ensures planning.Some? ==> FilesDescribe(m.trace, |began.trace|, window, render)
  {
    hide Extends, Touches, Sane, Fine, Quiet, Faithful, Lists, Queried, DistinctServices, LowerCaseNames, PlanOf,
         IsPlan, HasMediumRisk, InEnter, EndsUncertain, WentWrong, PlannedFrom, NeedsConfirmation, CarriedOut,
         GainsNoStop, Since, WindowSeen, FilesDescribe, AllSampled, AllDescribed, ExitMeans;
    plan, planning, at, window := [], None, 0, [];
    ghost var before := began.trace;
    ghost var asked, started := m.trace, m.At();
    var samples := SampleCount(options, intervalMs);
    var history, observed := Observe(m, config, samples);
    SinceOn(began, started, m.At());
    QuietMeans(asked, m.trace);
    FineWhileQuiet(asked, m.trace);
    QuietOn(before, asked, m.trace);
    QuietMeans(before, m.trace);
    if observed.None? {
      NotObserved(config, options, began, started, m.At());
      QuietStopsNothing(before, m.trace);
      NothingPlanned(m.trace, |before| - 1, config, options, at);
      NoWindow(options, intervalMs, began);
      return 1, [], None, at, [];
    }
    ghost var seen, looked := m.trace, m.At();
    at := |seen| - 1;
    planning, window := observed, history;
    exit, plan := Decide(m, config, options, render, history, observed.value, began);
    WindowSeenWider(history, observed, options, intervalMs, began, started, looked, m.At());
    PlanIsFrom(seen, m.trace, |before| - 1, config, observed.value, plan);
    ConfirmationOf(config, options, observed.value);
  }

  lemma WindowSeenWider(
      window: seq<SystemSnapshot>, planning: Option<SystemSnapshot>, options: CliOptions, intervalMs: u32,
      p: Moment, q: Moment, r: Moment, s: Moment)
    requires Since(p, q) && Since(q, r) && Since(r, s) && planning.Some? && window != []
    requires ValidDuration(options) && 0 < intervalMs
    requires |window| == SamplesIn(options.baselineSeconds * 1000, intervalMs)
    requires AllSampled(window, q, r) && AllDescribed(planning.value.services, q, r)
    requires planning.value == window[|window| - 1].(services := planning.value.services, serviceComplete := true)
    ensures WindowSeen(window, planning, options, intervalMs, p, s)
  {
    hide Since, AllSampled, AllDescribed, SamplesIn;
    AllSampledWider(window, p, q, r, s);
    AllDescribedWider(planning.value.services, p, q, r, s);
  }

  lemma NotObserved(config: Config, options: CliOptions, p: Moment, q: Moment, r: Moment)
    requires Since(p, q) && Since(q, r) && Quiet(p.trace, r.trace) && Last(r.trace).file.None?
    requires WentWrong(config, Last(q.trace), Last(r.trace))
    ensures ExitMeans(config, options, [], 1, p, r)
  {
    QuietMeans(p.trace, r.trace);
    hide Quiet;
  }

  lemma PlanIsFrom(
      seen: Trace, t: Trace, from: int, config: Config, planning: SystemSnapshot, plan: seq<OptimizationAction>)
    requires seen <= t && from <= |seen| - 1 && Faithful(Last(seen), planning) && IsPlan(config, planning, plan)
    requires Lists(planning.services, config.profile.allowServiceStop)
    ensures PlannedFrom(t, from, config, Some(planning), |seen| - 1, plan)
  {
    hide Faithful, IsPlan, Lists;
  }

  lemma ConfirmationOf(config: Config, options: CliOptions, planning: SystemSnapshot)
    ensures NeedsConfirmation(config, options, Some(planning)) <==>
              !options.dryRun && !options.confirmServiceActions && HasMediumRisk(PlanOf(config, planning))
  {
    hide HasMediumRisk, PlanOf;
  }

  lemma QuietStopsNothing(a: Trace, b: Trace)
    requires Quiet(a, b)
    ensures GainsNoStop(a, b)
  {
    QuietFiles(a, b);
    hide Quiet;
  }

  lemma StoppedNothing(a: Trace, mid: Trace, b: Trace)
    requires Quiet(a, mid) && mid <= b && NeverStopped(b, |mid|)
    ensures GainsNoStop(a, b)
  {
    QuietFiles(a, mid);
    hide Quiet;
    forall i, name | |a| <= i < |b| && StopAccepted(name) in b[i].log ensures StopAccepted(name) in Last(a).log {
      if i < |mid| { assert b[i] == mid[i]; }
    }
  }

  /** The baseline window, and its last snapshot with the configured services in it. */
  method Observe(m: Machine, config: Config, samples: nat)
    returns (window: seq<SystemSnapshot>, planning: Option<SystemSnapshot>)
    requires m.Valid() && LowerCaseNames(config) && samples > 0
    modifies m
    ensures m.Valid() && Quiet(old(m.trace), m.trace)
    ensures planning.Some? ==>
              && |window| == samples
              && Faithful(m.Now(), planning.value) && DistinctServices(planning.value.services)
              && Lists(planning.value.services, config.profile.allowServiceStop)
              && forall service | service in planning.value.services :: Queried(service)
    ensures planning.None? ==> WentWrong(config, old(m.Now()), m.Now())
    ensures Since(old(m.At()), m.At())
    ensures planning.Some? ==>
              && window != [] && AllSampled(window, old(m.At()), m.At())
              && planning.value == window[|window| - 1].(services := planning.value.services, serviceComplete := true)
              && AllDescribed(planning.value.services, old(m.At()), m.At())
  {
    hide Extends, Touches, Sane, Queried, DistinctServices, LowerCaseNames, Faithful, Lists, Since, AllSampled,
         AllDescribed;
    ghost var before, began := m.trace, m.At();
    var captured := CaptureHistory(m, samples);
    if captured.None? || captured.value == [] {
      return [], None;
    }
    window := captured.value;
    ghost var seen, looked := m.trace, m.At();
    QuietMeans(before, seen);
    planning := AttachConfiguredServices(m, config, window[samples - 1]);
    SinceOn(began, looked, m.At());
    SinceItself(began);
    SinceItself(m.At());
    AllSampledWider(window, began, began, looked, m.At());
    QuietMeans(seen, m.trace);
    FaithfulStays(seen, m.trace, window[samples - 1]);
    if planning.Some? {
      FaithfulWithServices(m.Now(), window[samples - 1], planning.value.services);
      AllDescribedWider(planning.value.services, began, looked, m.At(), m.At());
    }
  }

  /** From the planning snapshot on. */
  method Decide(
      m: Machine, config: Config, options: CliOptions, render: real -> Double, window: seq<SystemSnapshot>,
      planning: SystemSnapshot, ghost began: Moment)
    returns (exit: int, ghost plan: seq<OptimizationAction>)
    requires m.Valid() && Fine(m.trace) && LowerCaseNames(config) && Quiet(began.trace, m.trace)
    requires m.Now().file.None? && Since(began, m.At())
    requires Faithful(m.Now(), planning)
    requires DistinctServices(planning.services) && forall service | service in planning.services :: Queried(service)
    requires 0 < |window| < 0x1_0000_0000_0000_0000
    modifies m
    ensures m.Valid() && Fine(m.trace) && old(m.trace) <= m.trace && began.trace <= m.trace
    ensures Since(old(m.At()), m.At()) && Since(began, m.At())
    ensures exit == 0 || exit == 1 || exit == 2 || exit == 64
    ensures IsPlan(config, planning, plan)
    ensures ExitMeans(config, options, plan, exit, began, m.At())
    ensures exit == 64 <==>
              !options.dryRun && !options.confirmServiceActions && HasMediumRisk(PlanOf(config, planning))
    ensures !options.confirmServiceActions ==> GainsNoStop(began.trace, m.trace)
    ensures FilesDescribe(m.trace, |began.trace|, window, render)
  {
    hide Extends, Touches, Fine, Quiet, Faithful, Lists, Queried, DistinctServices, LowerCaseNames, PlanOf, IsPlan,
         HasMediumRisk, InEnter, EndsUncertain, WentWrong, CarriedOut, GainsNoStop, NeverStopped, Since, FilesDescribe,
         ExitMeans, BegunMeans, StoppedFor, Judged, Ready, AllDescribed, PointStorable;
    ghost var before, planned, looked := began.trace, m.trace, m.At();
    SinceItself(looked);
    QuietMeans(before, planned);
    QuietDescribes(before, planned, window, render);
    QuietStopsNothing(before, planned);
    var confirmed, mediumRiskActions := MakePlan(config, planning);
    plan := confirmed;
    if options.dryRun {
      QuietExit(config, options, plan, 0, began, looked);
      return 0, plan;
    }
    if mediumRiskActions != 0 && !options.confirmServiceActions {
      QuietExit(config, options, plan, 64, began, looked);
      return 64, plan;
    }
    if !options.confirmServiceActions {
      NoMediumRiskNoStops(config, planning, confirmed);
    }
    Claim(m, config, planning, confirmed);
    ghost var claimed, owned := m.trace, m.At();
    SinceOn(began, looked, owned);
    exit := Begun(m, config, render, window, confirmed, began);
    SinceOn(looked, owned, m.At());
    ClaimedDescribes(before, planned, claimed, m.trace, window, render);
    BegunExit(config, options, plan, exit, began, m.At());
    if !options.confirmServiceActions {
      StoppedNothing(before, planned, m.trace);
    }
  }

  lemma QuietExit(
      config: Config, options: CliOptions, plan: seq<OptimizationAction>, exit: int, p: Moment, q: Moment)
    requires Quiet(p.trace, q.trace) && (exit == 64 || (exit == 0 && options.dryRun))
    ensures ExitMeans(config, options, plan, exit, p, q)
  {
    hide Quiet;
  }

  lemma BegunExit(
      config: Config, options: CliOptions, plan: seq<OptimizationAction>, exit: int, p: Moment, q: Moment)
    requires BegunMeans(config, plan, exit, p, q) && !options.dryRun
    ensures ExitMeans(config, options, plan, exit, p, q) && (exit == 0 || exit == 1 || exit == 2)
  {
    hide StoppedFor, CarriedOut, WentWrong;
  }

  /** Without a session file there is nothing to describe. */
  lemma QuietDescribes(a: Trace, b: Trace, window: seq<SystemSnapshot>, render: real -> Double)
    requires Quiet(a, b) && Last(a).file.None? && window != []
    ensures FilesDescribe(b, |a|, window, render)
  {
    QuietFiles(a, b);
  }

  lemma ClaimedDescribes(
      a: Trace, b: Trace, c: Trace, d: Trace, window: seq<SystemSnapshot>, render: real -> Double)
    requires FilesDescribe(b, |a|, window, render) && FilesDescribe(d, |c|, window, render)
    requires a <= b <= c <= d && |c| == |b| + 1 && Last(c).file.None?
    ensures FilesDescribe(d, |a|, window, render)
  {
    hide BenchmarkPoints.PointOf;
    assert d[|c| - 1] == Last(c);
    forall i | |a| <= i < |d| && d[i].file.Some?
      ensures BenchmarkPoints.PointOf(d[i].file.value.baseline, window, render)
    {
      if i < |b| {
        assert d[i] == b[i];
      }
    }
  }

  /** The plan, confirmed, and how many of its actions are of medium risk. */
  method MakePlan(config: Config, planning: SystemSnapshot)
    returns (confirmed: seq<OptimizationAction>, mediumRiskActions: nat)
    ensures IsPlan(config, planning, confirmed)
    ensures mediumRiskActions != 0 <==> HasMediumRisk(PlanOf(config, planning))
  {
    hide PlanOf, HasMediumRisk, Confirmed;
    var created := Planner.Create(config, planning);
    mediumRiskActions := CountMediumRisk(created.actions);
    confirmed := ConfirmAll(created.actions);
  }

  lemma NoMediumRiskNoStops(config: Config, s: SystemSnapshot, plan: seq<OptimizationAction>)
    requires IsPlan(config, s, plan) && !HasMediumRisk(PlanOf(config, s))
    ensures forall a | a in plan :: !a.kind.StopServiceTemporary?
  {
    hide PlanOf, HasMediumRisk;
    forall k | 0 <= k < |plan| ensures !plan[k].kind.StopServiceTemporary? {
      if PlanOf(config, s)[k].kind.StopServiceTemporary? {
        PlannedStopsAreMedium(config, s, k);
      }
    }
  }

  /** What the exit code says once the targets are the session's. */
  ghost predicate BegunMeans(config: Config, plan: seq<OptimizationAction>, exit: int, p: Moment, q: Moment) {
    var v := Last(q.trace);
    match exit
    case 0 => CarriedOut(config, plan, p, q)
    case 1 => v.file.None? && v.log == [] && WentWrong(config, Last(p.trace), v)
    case 2 => StoppedFor(config, p, q)
    case _ => false
  }

  lemma NotCaptured(config: Config, plan: seq<OptimizationAction>, p: Moment, q: Moment, r: Moment)
    requires Since(p, q) && Quiet(q.trace, r.trace) && Last(q.trace).file.None? && Last(q.trace).log == []
    requires WentWrong(config, Last(q.trace), Last(r.trace))
    ensures BegunMeans(config, plan, 1, p, r)
  {
    QuietMeans(q.trace, r.trace);
    hide Quiet;
  }

  lemma OpenedExit(config: Config, plan: seq<OptimizationAction>, exit: int, p: Moment, q: Moment)
    requires exit == 0 || exit == 2
    requires exit == 0 ==> CarriedOut(config, plan, p, q)
    requires exit == 2 ==> StoppedFor(config, p, q)
    ensures BegunMeans(config, plan, exit, p, q)
  {
    hide StoppedFor, CarriedOut;
  }

  /** From the first change on; the trace ends with the moment the targets became the session's. */
  method Begun(
      m: Machine, config: Config, render: real -> Double, window: seq<SystemSnapshot>, plan: seq<OptimizationAction>,
      ghost began: Moment)
    returns (exit: int)
    requires m.Valid() && Fine(m.trace) && LowerCaseNames(config) && m.Now().file.None? && m.Now().log == []
    requires Ready(m.Now(), plan) && Since(began, m.At())
    requires 0 < |window| < 0x1_0000_0000_0000_0000
    modifies m
    ensures m.Valid() && Fine(m.trace) && old(m.trace) <= m.trace
    ensures Since(old(m.At()), m.At()) && Since(began, m.At())
    ensures FilesDescribe(m.trace, |old(m.trace)|, window, render)
    ensures BegunMeans(config, plan, exit, began, m.At())
    ensures (forall a | a in plan :: !a.kind.StopServiceTemporary?) ==> NeverStopped(m.trace, |old(m.trace)| - 1)
  {
    hide Extends, Touches, Fine, Quiet, Faithful, Lists, Queried, DistinctServices, LowerCaseNames, PlanOf, IsPlan,
         HasMediumRisk, InEnter, EndsUncertain, WentWrong, CarriedOut, NeverStopped, Since, FilesDescribe,
         FilesKeepBaseline, BegunMeans, StoppedFor, Judged, Ready, AllDescribed, PointStorable, Sane,
         BenchmarkPoints.PointOf;
    ghost var begun, owned := m.trace, m.At();
    var snapshot := CaptureActionState(m, config);
    ghost var captured := m.At();
    SinceOn(began, owned, captured);
    QuietMeans(begun, m.trace);
    QuietDescribes(begun, m.trace, window, render);
    ReadyWhileQuiet(begun, m.trace, plan);
    FineWhileQuiet(begun, m.trace);
    if snapshot.None? {
      NotCaptured(config, plan, began, owned, captured);
      return 1;
    }
    ghost var ready := m.trace;
    var session := NewSession(window, render);
    SinceItself(captured);
    JudgedWider(snapshot.value, began, owned, captured, captured);
    exit := Open(m, config, session, plan, snapshot.value, began);
    SinceOn(owned, captured, m.At());
    OpenedDescribes(begun, ready, m.trace, session.baseline, window, render);
    OpenedExit(config, plan, exit, began, m.At());
    if forall a | a in plan :: !a.kind.StopServiceTemporary? {
      NeverStoppedOn(ready, m.trace, |begun| - 1);
    }
  }

  /** SessionManager::Create. */
  method NewSession(window: seq<SystemSnapshot>, render: real -> Double) returns (session: Session)
    requires 0 < |window| < 0x1_0000_0000_0000_0000
    ensures PointStorable(session.baseline) && session.actions == [] && session.state == Active
    ensures BenchmarkPoints.PointOf(session.baseline, window, render)
  {
    var id: string, startTime: string := *, *;
    var baseline := BenchmarkPoints.MakeBenchmarkPoint(window, startTime, render);
    session := Session(id, Active, startTime, baseline, []);
  }

  /** The targets of the plan become the session's. */
  method Claim(m: Machine, config: Config, ghost planning: SystemSnapshot, confirmed: seq<OptimizationAction>)
    requires m.Valid() && Fine(m.trace) && m.Now().file.None?
    requires Faithful(m.Now(), planning) && DistinctServices(planning.services)
    requires forall service | service in planning.services :: Queried(service)
    requires IsPlan(config, planning, confirmed)
    modifies m
    ensures m.Valid() && Fine(m.trace) && old(m.trace) <= m.trace && |m.trace| == |old(m.trace)| + 1
    ensures m.Now().file.None? && m.Now().log == [] && m.Failures() == old(m.Failures()) && Since(old(m.At()), m.At())
    ensures Ready(m.Now(), confirmed)
  {
    var watch := WatchOf(confirmed);
    FaithfulIsSeen(m.Now(), planning);
    hide Extends, Touches, Fine, PlanOf, DistinctServices, Queried, SeenIn, WatchOf, Ready, Confirmed, Faithful;
    ConfirmedPlanIsReady(config, planning, m.Now(), confirmed, m.Now().(watch := watch, log := []));
    BeginKeepsFine(m.trace, watch);
    m.Begin(watch);
  }

  lemma ReadyWhileQuiet(a: Trace, b: Trace, plan: seq<OptimizationAction>)
    requires Quiet(a, b) && Ready(Last(a), plan) && Last(a).log == []
    ensures Ready(Last(b), plan) && NeverStopped(b, |a| - 1)
  {
    QuietMeans(a, b);
    QuietFiles(a, b);
    ReadyStays(Last(a), Last(b), plan);
    assert b[|a| - 1] == Last(a);
  }

  lemma NeverStoppedOn(a: Trace, b: Trace, from: nat)
    requires a <= b && NeverStopped(a, from) && NeverStopped(b, |a|)
    ensures NeverStopped(b, from)
  {
    forall i, name | from <= i < |b| ensures StopAccepted(name) !in b[i].log {
      if i < |a| { assert b[i] == a[i]; }
    }
  }

  lemma BackedWithoutRecords(t: Trace, session: Session)
    requires Fine(t) && Last(t).file.None? && Last(t).log == [] && session.actions == []
    ensures Backed(Last(t), session.actions) && FileAdvances(Last(t).file, session)
  {
    FineMeansGood(t);
    assert Good(Last(t));
  }

  /** After the first save, whether or not it succeeded. */
  lemma OpenedFile(a: Trace, b: Trace, session: Session)
    requires a <= b && Last(a).log == [] && Last(a).file.None?
    requires forall i | |a| <= i < |b| ::
               (b[i].file == Last(a).file || b[i].file == Some(session)) && b[i].log == Last(a).log
    ensures NeverStopped(b, |a|) && FilesKeepBaseline(b, |a|, session.baseline)
  {
  }

  lemma NotSavedStops(config: Config, p: Moment, q: Moment, r: Moment)
    requires Since(p, q) && Last(r.trace).failures > Last(q.trace).failures
    ensures StoppedFor(config, p, r)
  {
    hide EndsUncertain;
  }

  /** With the first file written, the run over the plan can begin. */
  lemma ReadyToRun(
      p: Moment, q: Moment, began: Moment, session: Session, plan: seq<OptimizationAction>, snapshot: SystemSnapshot)
    requires Since(began, p) && Since(p, q) && Passed(Last(p.trace), Last(q.trace))
    requires Ready(Last(p.trace), plan) && Faithful(Last(p.trace), snapshot) && Judged(snapshot, began, p)
    requires Fine(q.trace) && Last(q.trace).file == Some(session) && session.actions == []
    requires Last(q.trace).watch == Last(p.trace).watch
    ensures InEnter(q.trace, session, plan) && Faithful(Last(q.trace), snapshot) && Judged(snapshot, began, q)
  {
    hide Fine, Ready, Faithful, Passed, Judged, Since;
    ReadyStays(Last(p.trace), Last(q.trace), plan);
    FaithfulWhenPassed(Last(p.trace), Last(q.trace), snapshot);
    SinceItself(began);
    JudgedWider(snapshot, began, began, p, q);
  }

  /** Writes the first session file and runs the plan. */
  method Open(
      m: Machine, config: Config, session: Session, plan: seq<OptimizationAction>, snapshot: SystemSnapshot,
      ghost began: Moment)
    returns (exit: int)
    requires m.Valid() && Fine(m.trace) && LowerCaseNames(config) && m.Now().file.None? && session.actions == []
    requires Ready(m.Now(), plan) && Faithful(m.Now(), snapshot) && PointStorable(session.baseline)
    requires m.Now().log == [] && Since(began, m.At()) && Judged(snapshot, began, m.At())
    modifies m
    ensures m.Valid() && Fine(m.trace) && old(m.trace) <= m.trace && (exit == 0 || exit == 2)
    ensures Since(old(m.At()), m.At()) && Since(began, m.At())
    ensures FilesKeepBaseline(m.trace, |old(m.trace)|, session.baseline)
    ensures exit == 0 ==> CarriedOut(config, plan, began, m.At())
    ensures exit == 2 ==> StoppedFor(config, began, m.At())
    ensures (forall a | a in plan :: !a.kind.StopServiceTemporary?) ==> NeverStopped(m.trace, |old(m.trace)|)
  {
    hide Extends, Touches, Sane, Quiet, Fine, PointStorable, LowerCaseNames, Backed, Ready, Good, Faithful, Passed,
         FollowsSince, EndsUncertain, Since, Judged, AllAccounted, NeverStopped, FilesKeepBaseline, FileAdvances,
         CarriedOut, InEnter, Lists, StoppedFor;
    ghost var before, owned := m.trace, m.At();
    BackedWithoutRecords(m.trace, session);
    var saved := Persist(m, session);
    ghost var written, noted := m.trace, m.At();
    SinceOn(began, owned, noted);
    OpenedFile(before, written, session);
    if !saved {
      NotSavedStops(config, began, owned, noted);
      return 2;
    }
    ReadyToRun(owned, noted, began, session, plan, snapshot);
    exit := RunPlan(m, config, session, plan, snapshot, began);
    SinceOn(owned, noted, m.At());
    RunKeepsBaseline(before, written, m.trace, session, plan);
    if forall a | a in plan :: !a.kind.StopServiceTemporary? {
      StopsArePlanned(m.trace, |written|, plan);
      NeverStoppedOn(written, m.trace, |before|);
    }
  }

  ghost predicate FilesKeepBaseline(t: Trace, from: nat, baseline: BenchmarkPoint) {
    forall i | from <= i < |t| && t[i].file.Some? :: t[i].file.value.baseline == baseline
  }

  /** While there is a session file, its baseline stays. */
  lemma {:induction false} BaselineStays(t: Trace, i: nat, j: nat, plan: seq<OptimizationAction>)
    requires Fine(t) && i <= j < |t| && t[i].file.Some? && FollowsSince(t, i + 1, plan)
    ensures t[j].file.Some? && t[j].file.value.baseline == t[i].file.value.baseline
    decreases j
  {
    hide Good, Authorized, Rightful;
    if i < j {
      BaselineStays(t, i, j - 1, plan);
      assert Follows(t[j], plan);
      assert StepOk(t[j - 1], t[j]);
    }
  }

  lemma RunKeepsBaseline(a: Trace, b: Trace, c: Trace, session: Session, plan: seq<OptimizationAction>)
    requires Fine(c) && |a| <= |b| && b <= c && Last(b).file == Some(session) && FollowsSince(c, |b|, plan)
    requires FilesKeepBaseline(b, |a|, session.baseline)
    ensures FilesKeepBaseline(c, |a|, session.baseline)
  {
    hide Fine, FollowsSince;
    forall i | |a| <= i < |c| && c[i].file.Some? ensures c[i].file.value.baseline == session.baseline {
      if i < |b| {
        assert c[i] == b[i];
      } else {
        BaselineStays(c, |b| - 1, i, plan);
      }
    }
  }

  lemma OpenedDescribes(
      a: Trace, b: Trace, c: Trace, baseline: BenchmarkPoint, window: seq<SystemSnapshot>, render: real -> Double)
    requires FilesDescribe(b, |a|, window, render) && FilesKeepBaseline(c, |b|, baseline) && b <= c
    requires BenchmarkPoints.PointOf(baseline, window, render)
    ensures FilesDescribe(c, |a|, window, render)
  {
    hide BenchmarkPoints.PointOf;
    forall i | |a| <= i < |c| && c[i].file.Some?
      ensures BenchmarkPoints.PointOf(c[i].file.value.baseline, window, render)
    {
      if i < |b| {
        assert c[i] == b[i];
      }
    }
  }

  lemma FaithfulWhenPassed(w: World, v: World, s: SystemSnapshot)
    requires Faithful(w, s) && Passed(w, v)
    ensures Faithful(v, s)
  {
    var u := w.(file := v.file, reports := v.reports);
    assert Honest(u, s);
    HonestStays(u, v, s);
  }
}
