/** ActionExecutor: carrying one action out, and taking one record back. */
module Executor {
  import opened Types
  import opened Planner
  import opened Worlds
  import opened Moments
  import opened Refusals
  import opened Recoverable
  import opened Machines
  import Processes = ProcessActionApi
  import Wire
  import opened Utf8
  import Helper = ElevatedHelper

  /** The effects an action may have. */
  function ActionScope(a: OptimizationAction): Scope {
    match a.kind
    case SetPriorityClass => Priorities(Target(a))
    case GracefulCloseProcess => Closes(Target(a))
    case StopServiceTemporary => Stops(a.serviceName)
    case _ => NOTHING
  }

  /** The effects that taking an action back may have: closes are never sent again and services never stopped. */
  function UndoScope(a: OptimizationAction): Scope {
    match a.kind
    case SetPriorityClass => Priorities(Target(a))
    case StopServiceTemporary => Starts(a.serviceName)
    case _ => NOTHING
  }

  /** States in which an action can come out of its execution. */
  predicate IsOutcome(kind: ActionType, state: ActionState) {
    || state == Failed || state == Rejected
    || match kind
       case SetPriorityClass => state == Applied
       case GracefulCloseProcess => state == ActionState.Completed || state == Uncertain
       case StopServiceTemporary => state == Applied || state == Uncertain
       case _ => false
  }

  /** `done` was done for `a` between the two moments, and nothing of it twice. */
  ghost predicate Did(before: Trace, after: Trace, done: seq<Effect>, a: OptimizationAction) {
    && Last(after).log == Last(before).log + done && NoRepeat(done)
    && forall e | e in done :: Deed(e) && DoneFor(e, a)
  }

  lemma DidNothing(before: Trace, after: Trace, a: OptimizationAction)
    requires Quiet(before, after)
    ensures Did(before, after, [], a) && Extends(before, after, ActionScope(a))
  {
    QuietMeans(before, after);
    ExtendsItself(before, ActionScope(a));
  }

  // ----- Why an action does not come out as planned -----

  ghost predicate RoundFor(
      a: OptimizationAction, windows: seq<nat>, turns: seq<Processes.Turn>, sent: seq<Effect>, p: Moment, q: Moment)
  {
    Processes.WentRound(Target(a), windows, turns, sent, p.clock + Processes.BoundedTimeout(a.timeoutMs), p, q)
  }

  /** The windows listed for the target were gone through in order, with these messages. */
  ghost predicate Rounds(a: OptimizationAction, sent: seq<Effect>, p: Moment, q: Moment) {
    exists windows, turns :: RoundFor(a, windows, turns, sent, p, q)
  }

  /** Time ran out, or some message was not delivered. */
  ghost predicate CloseUnsure(a: OptimizationAction, sent: seq<Effect>, p: Moment, q: Moment) {
    Rounds(a, sent, p, q)
    && (Processes.Undelivered(sent) || q.clock >= p.clock + Processes.BoundedTimeout(a.timeoutMs))
  }

  ghost predicate HasCause(r: ExecutedAction, p: Moment, q: Moment) {
    var a := r.action;
    match a.kind
    case SetPriorityClass => r.state != Applied ==> Troubled(p, q) || GoneIn(p, q, Target(a))
    case GracefulCloseProcess =>
      && (r.state == Failed ==> Processes.CloseHindered(Target(a), p, q))
      && (r.state == Uncertain ==> exists sent :: CloseUnsure(a, sent, p, q))
    case StopServiceTemporary =>
      r.state != Applied ==>
        Helper.Denied(Wire.STOP_SERVICE_TEMPORARY, a.serviceName, a.serviceIdentity, a.timeoutMs, p, q)
    case _ => true
  }

  lemma RoundsWider(a: OptimizationAction, sent: seq<Effect>, p: Moment, q: Moment, r: Moment, s: Moment)
    requires Since(p, q) && Since(q, r) && Since(r, s) && Rounds(a, sent, q, r)
    ensures Rounds(a, sent, p, s)
  {
    hide Processes.WentRound, Processes.BoundedTimeout;
    var bound := Processes.BoundedTimeout(a.timeoutMs);
    var windows, turns :| RoundFor(a, windows, turns, sent, q, r);
    Processes.RoundWider(Target(a), windows, turns, sent, q.clock + bound, p.clock + bound, p, q, r, s);
    assert RoundFor(a, windows, turns, sent, p, s);
  }

  lemma HasCauseWider(x: ExecutedAction, p: Moment, q: Moment, r: Moment, s: Moment)
    requires Since(p, q) && Since(q, r) && Since(r, s) && HasCause(x, q, r)
    ensures HasCause(x, p, s)
  {
    hide Processes.BoundedTimeout, Processes.CloseHindered, Helper.Denied, Processes.Undelivered, Rounds, Heard;
    var a := x.action;
    Wider(p, q, r, s);
    if a.kind.StopServiceTemporary? && x.state != Applied {
      Helper.DeniedWider(Wire.STOP_SERVICE_TEMPORARY, a.serviceName, a.serviceIdentity, a.timeoutMs, p, q, r, s);
    } else if a.kind.GracefulCloseProcess? && x.state == Failed {
      Processes.CloseHinderedWider(Target(a), p, q, r, s);
    } else if a.kind.GracefulCloseProcess? && x.state == Uncertain {
      var sent :| CloseUnsure(a, sent, q, r);
      RoundsWider(a, sent, p, q, r, s);
      assert CloseUnsure(a, sent, p, s);
    }
  }

  lemma RequestIsDone(a: OptimizationAction, sent: seq<Effect>)
    requires Processes.IsRequest(Target(a), sent) && a.kind.GracefulCloseProcess?
    ensures NoRepeat(sent) && forall e | e in sent :: Deed(e) && DoneFor(e, a)
  {
  }

  /**
   * ActionExecutor::Execute. An action that comes out Failed or Rejected had no effect at all; nothing is done twice;
   * and the priority saved for undoing is the one the process had before. Applied means that it was done; a close that
   * is Completed although its target lives was delivered to every window it was sent to, after all of them were gone
   * through. Whatever else an action that validates comes to has a cause outside, and a stop is only made with leave.
   */
  method Execute(m: Machine, config: Config, a: OptimizationAction, current: SystemSnapshot)
    returns (result: ExecutedAction, ghost done: seq<Effect>)
    requires m.Valid() && IsWatched(m.Now(), a)
    modifies m
    ensures m.Valid() && Extends(old(m.trace), m.trace, ActionScope(a))
    ensures Did(old(m.trace), m.trace, done, a)
    ensures result.action == a && IsOutcome(a.kind, result.state)
    ensures result.state == Failed || result.state == Rejected ==> Quiet(old(m.trace), m.trace)
    ensures !Validate(config, a, current) ==> result.state == Rejected
    ensures a.kind.SetPriorityClass? && Validate(config, a, current) ==>
              result.state == Applied || result.state == Failed
    ensures a.kind.SetPriorityClass? && result.state == Applied && Live(m.Now(), Target(a)) ==>
              && Live(old(m.Now()), Target(a)) && result.originalPriority == old(m.Now()).procs[a.pid].priority
              && m.Now().procs[a.pid].priority == a.targetPriority
    ensures a.kind.SetPriorityClass? && result.state == Applied ==> result.originalPriority != 0
    ensures a.kind.StopServiceTemporary? ==> result.originalServiceState == a.sourceServiceState
    ensures result.state == Applied ==> done != []
    ensures result.state == ActionState.Completed && Live(m.Now(), Target(a)) ==>
              done != [] && AllDelivered(done, Target(a))
    ensures Since(old(m.At()), m.At())
    ensures Validate(config, a, current) && (a.kind.StopServiceTemporary? || a.startTime != 0) ==>
              HasCause(result, old(m.At()), m.At())
    ensures result.state == ActionState.Completed && Live(m.Now(), Target(a)) ==>
              Rounds(a, done, old(m.At()), m.At())
    ensures a.kind.StopServiceTemporary? && done != [] ==>
              Helper.Permitted(Wire.STOP_SERVICE_TEMPORARY, a.serviceName, a.serviceIdentity, old(m.At()), m.At())
  {
    hide Extends, Touches, Sane, Quiet, Validate, HasCause, Rounds, Helper.Permitted, Since, Did, AllDelivered;
    ghost var before := m.trace;
    QuietItself(before);
    SinceItself(m.At());
    DidNothing(before, before, a);
    ValidKinds(config, a, current);
    var blank := ExecutedAction(
      a, Rejected, 0,
      if a.kind.StopServiceTemporary? then a.sourceServiceState else ServiceState.Unknown, 0, "", "");
    result, done := blank, [];
    var reason: string := *;
    if !Validate(config, a, current) {
      return result.(errorCode := Processes.ERROR_ACCESS_DISABLED_BY_POLICY, errorMessage := reason), [];
    }
    match a.kind {
      case SetPriorityClass =>
        result, done := ExecutePriority(m, a, blank);
      case GracefulCloseProcess =>
        result, done := ExecuteClose(m, a, blank);
      case StopServiceTemporary =>
        result, done := ExecuteStop(m, a, blank);
      case _ =>
        return result.(errorCode := Helper.ERROR_NOT_SUPPORTED, errorMessage := "action type is not implemented"), [];
    }
  }

  lemma ValidKinds(config: Config, a: OptimizationAction, s: SystemSnapshot)
    ensures Validate(config, a, s) ==>
              a.kind.SetPriorityClass? || a.kind.GracefulCloseProcess? || a.kind.StopServiceTemporary?
  {
    hide ValidateStop, FindProcess, ToLowerAscii, PriorityRank;
  }

  method ExecutePriority(m: Machine, a: OptimizationAction, blank: ExecutedAction)
    returns (result: ExecutedAction, ghost done: seq<Effect>)
    requires m.Valid() && IsWatched(m.Now(), a) && a.kind.SetPriorityClass? && blank.action == a
    modifies m
    ensures m.Valid() && Extends(old(m.trace), m.trace, Priorities(Target(a)))
    ensures Did(old(m.trace), m.trace, done, a)
    ensures result.action == a && (result.state == Failed || result.state == Applied)
    ensures result.state == Failed ==> Quiet(old(m.trace), m.trace)
    ensures result.state == Applied && Live(m.Now(), Target(a)) ==>
              && Live(old(m.Now()), Target(a)) && result.originalPriority == old(m.Now()).procs[a.pid].priority
              && m.Now().procs[a.pid].priority == a.targetPriority
    ensures result.state == Applied ==> result.originalPriority != 0 && done != []
    ensures Since(old(m.At()), m.At()) && (a.startTime != 0 ==> HasCause(result, old(m.At()), m.At()))
  {
    hide Extends, Touches, Sane, GoneIn;
    ghost var before := m.trace;
    var changed := Processes.SetPriority(m, a.pid, a.startTime, a.targetPriority);
    var message: string := *;
    result := blank.(originalPriority := changed.originalPriority);
    ExtendsMeans(before, m.trace, Priorities(Target(a)));
    if !changed.success {
      DidNothing(before, m.trace, a);
      return result.(state := Failed, errorCode := changed.errorCode, errorMessage := message), [];
    }
    return result.(state := Applied), [PrioritySet(Target(a), a.targetPriority, false)];
  }

  const NOT_REPLAYED := "; WM_CLOSE delivery could not be determined and will not be replayed automatically"
  const EXITED := "graceful close completed and process exited"
  const DELIVERED := "WM_CLOSE delivered; process may be awaiting user confirmation"

  method ExecuteClose(m: Machine, a: OptimizationAction, blank: ExecutedAction)
    returns (result: ExecutedAction, ghost done: seq<Effect>)
    requires m.Valid() && IsWatched(m.Now(), a) && a.kind.GracefulCloseProcess? && blank.action == a
    modifies m
    ensures m.Valid() && Extends(old(m.trace), m.trace, Closes(Target(a))) && Since(old(m.At()), m.At())
    ensures Did(old(m.trace), m.trace, done, a)
    ensures result.action == a
    ensures result.state == Failed || result.state == ActionState.Completed || result.state == Uncertain
    ensures result.state == Failed ==> done == [] && Quiet(old(m.trace), m.trace)
    ensures result.state == ActionState.Completed && Live(m.Now(), Target(a)) ==>
              done != [] && AllDelivered(done, Target(a)) && Rounds(a, done, old(m.At()), m.At())
    ensures a.startTime != 0 ==> HasCause(result, old(m.At()), m.At())
    ensures result.state == Uncertain ==> CloseUnsure(a, done, old(m.At()), m.At())
  {
    hide Extends, Touches, Sane, Since, Processes.WentRound, Processes.CloseHindered, Processes.Undelivered,
         Processes.BoundedTimeout;
    var closed: Processes.GracefulCloseResult;
    ghost var windows: Option<seq<nat>>, turns: seq<Processes.Turn>;
    closed, done, windows, turns := Processes.RequestGracefulClose(m, a.pid, a.startTime, a.timeoutMs);
    RequestIsDone(a, done);
    assert windows.Some? ==> RoundFor(a, windows.value, turns, done, old(m.At()), m.At());
    hide AllDelivered, NoRepeat, Deed, DoneFor, Quiet, Processes.IsRequest;
    var message: string := *;
    if !closed.success {
      result := blank.(
          state := if closed.deliveryUncertain then Uncertain else Failed,
          errorCode := closed.errorCode,
          errorMessage := if closed.deliveryUncertain then message + NOT_REPLAYED else message);
    } else {
      result := blank.(
          state := ActionState.Completed, resultMessage := if closed.processExited then EXITED else DELIVERED);
    }
    assert result.state == Uncertain ==> CloseUnsure(a, done, old(m.At()), m.At());
  }

  method ExecuteStop(m: Machine, a: OptimizationAction, blank: ExecutedAction)
    returns (result: ExecutedAction, ghost done: seq<Effect>)
    requires m.Valid() && a.kind.StopServiceTemporary? && blank.action == a
    modifies m
    ensures m.Valid() && Extends(old(m.trace), m.trace, Stops(a.serviceName)) && Since(old(m.At()), m.At())
    ensures Did(old(m.trace), m.trace, done, a)
    ensures result.action == a && result.originalServiceState == blank.originalServiceState
    ensures result.state in {Failed, Rejected, Applied, Uncertain}
    ensures result.state == Failed || result.state == Rejected ==> Quiet(old(m.trace), m.trace)
    ensures result.state == Applied ==> done == [StopAccepted(a.serviceName)]
    ensures HasCause(result, old(m.At()), m.At())
    ensures done != [] ==>
              Helper.Permitted(Wire.STOP_SERVICE_TEMPORARY, a.serviceName, a.serviceIdentity, old(m.At()), m.At())
  {
    hide Helper.Denied, Helper.Permitted, Since, Touches, Sane, Wire.ValidRequest, Helper.TextOf, IsText;
    ghost var before := m.trace;
    var elevated, asked :=
      Helper.Execute(m, Wire.STOP_SERVICE_TEMPORARY, a.serviceName, a.serviceIdentity, a.timeoutMs);
    assert Helper.ScopeOf(Wire.STOP_SERVICE_TEMPORARY, a.serviceName) == Stops(a.serviceName);
    assert Extends(before, m.trace, Stops(a.serviceName));
    done := if m.Now().log == Last(before).log then [] else [StopAccepted(a.serviceName)];
    assert Did(before, m.trace, done, a);
    hide Extends, Quiet;
    var message: string := *;
    if !elevated.transportSuccess {
      return blank.(
          state := if elevated.requestSent then Uncertain else Failed,
          errorCode := elevated.errorCode,
          errorMessage := if elevated.userCancelled then "administrator confirmation was cancelled" else message),
        done;
    }
    var response := elevated.response;
    result := blank.(errorCode := response.errorCode, errorMessage := Helper.TextOf(response.message));
    if response.status == Wire.SUCCEEDED && response.stateAfter == Stopped {
      result := result.(state := Applied, resultMessage := Helper.TextOf(response.message));
    } else if response.status == Wire.REJECTED {
      result := result.(state := Rejected);
    } else if response.status == Wire.UNCERTAIN || response.status == Wire.SUCCEEDED {
      result := result.(state := Uncertain);
    } else {
      result := result.(state := Failed);
    }
  }

  // ----- Taking back -----

  /** The target of `a` is as it was before the session, according to what record `r` saved. */
  predicate PutBack(w: World, r: ExecutedAction) {
    match r.action.kind
    case SetPriorityClass => Live(w, Target(r.action)) ==> w.procs[r.action.pid].priority == r.originalPriority
    case StopServiceTemporary => IsRunning(w, r.action.serviceName)
    case _ => true
  }

  /** Nothing is left to do for such a record. */
  predicate NeedsNoRollback(r: ExecutedAction) {
    Final(r.state) || (r.state == ActionState.Completed && !IsReversible(r.action.kind))
  }

  /** Why a record cannot be taken back: it lacks what is needed for it, a call failed, or the restart was denied. */
  ghost predicate NotUndone(r: ExecutedAction, p: Moment, q: Moment) {
    var a := r.action;
    match a.kind
    case SetPriorityClass => Troubled(p, q) || r.originalPriority == 0 || a.startTime == 0
    case StopServiceTemporary =>
      || r.originalServiceState != Running || a.serviceName == "" || a.serviceIdentity == ""
      || Helper.Denied(Wire.START_SERVICE_RESTORE, a.serviceName, a.serviceIdentity, a.timeoutMs, p, q)
    case _ => true
  }

  /** What is said of a record that cannot be taken back. */
  function Irreversible(kind: ActionType): string {
    match kind
    case GracefulCloseProcess => "graceful close may have been delivered and cannot be rolled back"
    case StopServiceTemporary => "service action has no valid restore payload"
    case _ => "action has no reversible priority payload"
  }

  /**
   * ActionExecutor::Rollback. Success means that nothing is left to undo; failure leaves the record Uncertain, to be
   * tried again, and has its reason. What cannot be taken back is not done again either.
   */
  method Rollback(m: Machine, r: ExecutedAction) returns (ok: bool, after: ExecutedAction, ghost done: seq<Effect>)
    requires m.Valid() && IsWatched(m.Now(), r.action)
    modifies m
    ensures m.Valid() && Extends(old(m.trace), m.trace, UndoScope(r.action)) && Since(old(m.At()), m.At())
    ensures m.Now().log == old(m.Now().log) + done && forall e | e in done :: !Deed(e)
    ensures after.action == r.action && after.originalPriority == r.originalPriority
    ensures after.originalServiceState == r.originalServiceState
    ensures NeedsNoRollback(r) ==> ok && after == r && Quiet(old(m.trace), m.trace)
    ensures !Final(r.state) && (IsReversible(r.action.kind) || r.state != ActionState.Completed) ==>
              after.state == if ok then RolledBack else Uncertain
    ensures ok && after != r ==> IsReversible(r.action.kind) && PutBack(m.Now(), r)
    ensures ok && after != r && r.action.kind.StopServiceTemporary? ==>
              Seen(old(m.At()), m.At(), r.action.serviceName, Running)
    ensures r.action.kind.GracefulCloseProcess? && r.state != ActionState.Completed && !Final(r.state) ==> !ok
    ensures r.action.kind.SetPriorityClass? && !Final(r.state) && r.originalPriority == 0 ==>
              !ok && Quiet(old(m.trace), m.trace)
    ensures !ok ==> NotUndone(r, old(m.At()), m.At())
    ensures r.action.kind.StopServiceTemporary? && done != [] ==>
              Helper.Permitted(Wire.START_SERVICE_RESTORE, r.action.serviceName, r.action.serviceIdentity,
                               old(m.At()), m.At())
  {
    hide Extends, Touches, Sane, Quiet, Since, Helper.Denied, Helper.Permitted, Seen, Deed, IsWatched,
         Irreversible;
    ghost var before := m.trace;
    ExtendsItself(before, UndoScope(r.action));
    QuietItself(before);
    SinceItself(m.At());
    after, done := r, [];
    if r.state == RolledBack || r.state == Rejected || r.state == Failed {
      return true, r, [];
    }
    if r.state == ActionState.Completed && !IsReversible(r.action.kind) {
      return true, r, [];
    }
    if r.action.kind.GracefulCloseProcess? {
      return false,
        r.(state := Uncertain, errorCode := Helper.ERROR_NOT_SUPPORTED,
           errorMessage := Irreversible(r.action.kind)), [];
    }
    if r.action.kind.StopServiceTemporary? {
      if r.originalServiceState != Running || r.action.serviceName == "" || r.action.serviceIdentity == "" {
        return false,
          r.(state := Uncertain, errorCode := Helper.ERROR_INVALID_DATA,
             errorMessage := Irreversible(r.action.kind)), [];
      }
      ok, after, done := RollbackStop(m, r);
      return;
    }
    if r.action.kind != SetPriorityClass || r.originalPriority == 0 {
      return false,
        r.(state := Uncertain, errorCode := Helper.ERROR_NOT_SUPPORTED,
           errorMessage := Irreversible(r.action.kind)), [];
    }
    ok, after, done := RollbackPriority(m, r);
  }

  /** Puts the priority back. */
  method RollbackPriority(m: Machine, r: ExecutedAction)
    returns (ok: bool, after: ExecutedAction, ghost done: seq<Effect>)
    requires m.Valid() && IsWatched(m.Now(), r.action) && r.action.kind.SetPriorityClass? && !Final(r.state)
    modifies m
    ensures m.Valid() && Extends(old(m.trace), m.trace, Priorities(Target(r.action))) && Since(old(m.At()), m.At())
    ensures m.Now().log == old(m.Now().log) + done && forall e | e in done :: !Deed(e)
    ensures after.action == r.action && after.originalPriority == r.originalPriority
    ensures after.originalServiceState == r.originalServiceState
    ensures after.state == if ok then RolledBack else Uncertain
    ensures ok ==> PutBack(m.Now(), r)
    ensures !ok ==> Troubled(old(m.At()), m.At()) || r.action.startTime == 0
  {
    hide Extends, Touches, Sane, Quiet, Since;
    ghost var before := m.trace;
    var message: string := *;
    var code: u32;
    ok, code := Processes.RestorePriority(m, r.action.pid, r.action.startTime, r.originalPriority);
    done := [];
    if Quiet(before, m.trace) {
      QuietMeans(before, m.trace);
    } else {
      done := [PrioritySet(Target(r.action), r.originalPriority, true)];
    }
    if !ok {
      return false, r.(state := Uncertain, errorCode := code, errorMessage := message), done;
    }
    after := r.(state := RolledBack);
  }

  /** Asks the helper to start the service again. It fails only if that is denied, and then for a reason. */
  method RollbackStop(m: Machine, r: ExecutedAction) returns (ok: bool, after: ExecutedAction, ghost done: seq<Effect>)
    requires m.Valid() && IsWatched(m.Now(), r.action) && r.action.kind.StopServiceTemporary? && !Final(r.state)
    modifies m
    ensures m.Valid() && Extends(old(m.trace), m.trace, Starts(r.action.serviceName)) && Since(old(m.At()), m.At())
    ensures m.Now().log == old(m.Now().log) + done && forall e | e in done :: !Deed(e)
    ensures after.action == r.action && after.originalPriority == r.originalPriority
    ensures after.originalServiceState == r.originalServiceState
    ensures after.state == if ok then RolledBack else Uncertain
    ensures ok ==>
              && IsRunning(m.Now(), r.action.serviceName)
              && Seen(old(m.At()), m.At(), r.action.serviceName, Running)
    ensures !ok ==>
              Helper.Denied(Wire.START_SERVICE_RESTORE, r.action.serviceName, r.action.serviceIdentity,
                            r.action.timeoutMs, old(m.At()), m.At())
    ensures done != [] ==>
              Helper.Permitted(Wire.START_SERVICE_RESTORE, r.action.serviceName, r.action.serviceIdentity,
                               old(m.At()), m.At())
  {
    hide Helper.Denied, Helper.Permitted, Since, Touches, Sane, Wire.ValidRequest, Wire.ValidResponse, Helper.TextOf,
         Seen;
    ghost var before := m.trace;
    var a := r.action;
    var elevated, asked := Helper.Execute(m, Wire.START_SERVICE_RESTORE, a.serviceName, a.serviceIdentity, a.timeoutMs);
    assert Helper.ScopeOf(Wire.START_SERVICE_RESTORE, a.serviceName) == Starts(a.serviceName);
    assert Extends(before, m.trace, Starts(a.serviceName));
    ExtendsMeans(before, m.trace, Starts(a.serviceName));
    hide Extends;
    done := if m.Now().log == Last(before).log then [] else [StartAccepted(a.serviceName)];
    var message: string := *;
    if !elevated.transportSuccess {
      return false,
        r.(state := Uncertain, errorCode := elevated.errorCode,
           errorMessage := if elevated.userCancelled then "administrator confirmation was cancelled" else message),
        done;
    }
    if elevated.response.status != Wire.SUCCEEDED || elevated.response.stateAfter != Running {
      return false,
        r.(state := Uncertain, errorCode := elevated.response.errorCode,
           errorMessage := Helper.TextOf(elevated.response.message)), done;
    }
    return true,
      r.(state := RolledBack, errorCode := 0, errorMessage := "",
         resultMessage := "service restored to its original running state"), done;
  }
}
