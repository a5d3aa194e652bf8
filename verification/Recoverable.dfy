/** The invariant of every reachable world: whatever was changed can be undone from what is on disk. */
module Recoverable {
  import opened Types
  import opened SessionModel
  import opened Completion
  import opened Planner
  import opened Worlds

  // ----- Records and their targets -----

  function Target(a: OptimizationAction): Ident { Ident(a.pid, a.startTime) }

  predicate Pending(state: ActionState) { state == Planned || state == Applied || state == Uncertain }

  predicate Final(state: ActionState) { state == RolledBack || state == Rejected || state == Failed }

  /** A close that may or may not have been delivered. */
  predicate UncertainClose(r: ExecutedAction) {
    r.action.kind.GracefulCloseProcess? && r.state == Uncertain
  }

  /** The message of a close that is only completed by the user's word. */
  function UsersWord(r: ExecutedAction): string {
    "user acknowledged uncertain graceful-close outcome after recovery"
  }

  lemma OneWord(r: ExecutedAction, q: ExecutedAction)
    ensures UsersWord(r) == UsersWord(q)
  {
  }

  /** What the user's word makes of a record. */
  function Acknowledged(r: ExecutedAction): ExecutedAction {
    if UncertainClose(r) then r.(state := ActionState.Completed, resultMessage := UsersWord(r)) else r
  }

  /** `r` will put the priority of `who` back to `base`. */
  predicate Undoes(r: ExecutedAction, who: Ident, base: u32) {
    r.action.kind.SetPriorityClass? && Target(r.action) == who && Pending(r.state) && r.originalPriority == base
  }

  /** `r` will start the service again. */
  predicate Restarts(r: ExecutedAction, name: string) {
    && r.action.kind.StopServiceTemporary? && r.action.serviceName == name && Pending(r.state)
    && r.originalServiceState == Running
  }

  predicate IsWatched(w: World, a: OptimizationAction) {
    if a.kind.StopServiceTemporary? then a.serviceName in w.watch.services
    else Target(a) in w.watch.processes
  }

  /** The value saved for undoing a priority change is a priority, and the one from before the session. */
  predicate TruePayload(w: World, r: ExecutedAction) {
    r.action.kind.SetPriorityClass? && Pending(r.state) ==>
      && r.originalPriority != 0
      && (Live(w, Target(r.action)) ==> r.originalPriority == w.procs[r.action.pid].base)
  }

  /** Only one-shot actions are ever Completed. */
  predicate Regular(r: ExecutedAction) {
    IsReversible(r.action.kind) ==> r.state != ActionState.Completed
  }

  /** Nothing the session did to this target is left. */
  predicate Clean(w: World, a: OptimizationAction) {
    match a.kind
    case SetPriorityClass => Live(w, Target(a)) ==> w.procs[a.pid].priority == w.procs[a.pid].base
    case StopServiceTemporary => StopAccepted(a.serviceName) in w.log ==> IsRunning(w, a.serviceName)
    case _ => true
  }

  predicate DistinctRecords(records: seq<ExecutedAction>) {
    forall i, j | 0 <= i < j < |records| :: !SameTarget(records[i].action, records[j].action)
  }

  // ----- At most once -----

  /** Effects that must not happen twice; putting things back may be repeated. */
  predicate Deed(e: Effect) {
    match e
    case PrioritySet(_, _, undo) => !undo
    case CloseSent(_, _, _, _) => true
    case StopAccepted(_) => true
    case StartAccepted(_) => false
  }

  /**
   * The same thing done again: the same priority changed, the same stop accepted; for closes, the same window told
   * again, or a second request to the same process (each request numbers its messages from zero).
   */
  predicate SameDeed(e: Effect, f: Effect) {
    match e
    case PrioritySet(who, _, _) => f.PrioritySet? && !f.undo && f.who == who
    case CloseSent(who, window, nth, _) => f.CloseSent? && f.who == who && (f.window == window || f.nth == nth)
    case _ => e == f
  }

  predicate NoRepeat(log: seq<Effect>) {
    forall i, j | 0 <= i < j < |log| && Deed(log[i]) :: !SameDeed(log[i], log[j])
  }

  predicate DoneFor(e: Effect, a: OptimizationAction) {
    match e
    case PrioritySet(who, _, _) => a.kind.SetPriorityClass? && Target(a) == who
    case CloseSent(who, _, _, _) => a.kind.GracefulCloseProcess? && Target(a) == who
    case StopAccepted(name) => a.kind.StopServiceTemporary? && a.serviceName == name
    case StartAccepted(_) => false
  }

  /** Everything done was done for some record. */
  predicate Accounted(log: seq<Effect>, records: seq<ExecutedAction>) {
    forall e | e in log && Deed(e) :: exists r | r in records :: DoneFor(e, r.action)
  }

  /** Something was done for `a`. */
  predicate Done(log: seq<Effect>, a: OptimizationAction) {
    exists e | e in log :: Deed(e) && DoneFor(e, a)
  }

  predicate AllDelivered(log: seq<Effect>, who: Ident) {
    forall e | e in log && e.CloseSent? && e.who == who :: e.delivered
  }

  /**
   * What the state of a record tells is true: nothing was done for a failed or rejected action, something was done for
   * an applied one, and while the target of a completed close lives, messages were sent to it and all were delivered,
   * unless the close is only completed by the user's word.
   */
  predicate Told(w: World, r: ExecutedAction) {
    && (r.state == Failed || r.state == Rejected ==> !Done(w.log, r.action))
    && (r.state == Applied ==> Done(w.log, r.action))
    && (r.action.kind.GracefulCloseProcess? && r.state == ActionState.Completed && r.resultMessage != UsersWord(r)
        && Live(w, Target(r.action)) ==>
          Done(w.log, r.action) && AllDelivered(w.log, Target(r.action)))
  }

  // ----- The invariant -----

  predicate PriorityCovered(w: World, records: seq<ExecutedAction>, pid: u32)
    requires pid in w.procs
  {
    var p := w.procs[pid];
    p.priority == p.base || exists r | r in records :: Undoes(r, Ident(pid, p.start), p.base)
  }

  predicate ServiceCovered(w: World, records: seq<ExecutedAction>, name: string) {
    IsRunning(w, name) || exists r | r in records :: Restarts(r, name)
  }

  /**
   * Each live process whose priority is not its own, and each stopped service that is not running, has a record that
   * will undo it.
   */
  predicate Covered(w: World, records: seq<ExecutedAction>) {
    && (forall pid | pid in w.procs :: PriorityCovered(w, records, pid))
    && (forall name | name in w.watch.services && StopAccepted(name) in w.log :: ServiceCovered(w, records, name))
  }

  predicate Backed(w: World, records: seq<ExecutedAction>) {
    && AllStorable(records) && DistinctRecords(records)
    && (forall r | r in records :: Regular(r) && IsWatched(w, r.action) && TruePayload(w, r) && Told(w, r))
    && Covered(w, records)
    && Accounted(w.log, records)
  }

  predicate Good(w: World) {
    && Sane(w) && NoRepeat(w.log)
    && if w.file.None? then Covered(w, []) else PointStorable(w.file.value.baseline) && Backed(w, w.file.value.actions)
  }

  /** Every process has its own priority, and every service the session stopped runs. */
  predicate Restored(w: World) {
    && (forall pid | pid in w.procs :: w.procs[pid].priority == w.procs[pid].base)
    && (forall name | name in w.watch.services && StopAccepted(name) in w.log :: IsRunning(w, name))
  }

  /** Without a session file there is nothing to undo. */
  lemma NoFileMeansRestored(w: World)
    requires Good(w) && w.file.None?
    ensures Restored(w)
  {
    forall pid | pid in w.procs ensures w.procs[pid].priority == w.procs[pid].base {
      assert PriorityCovered(w, [], pid);
    }
    forall name | name in w.watch.services && StopAccepted(name) in w.log ensures IsRunning(w, name) {
      assert ServiceCovered(w, [], name);
    }
  }

  /** Once every record is settled, so is the machine. */
  lemma SettledMeansRestored(w: World, records: seq<ExecutedAction>)
    requires Covered(w, records) && RollbackComplete(records)
    ensures Restored(w) && Covered(w, [])
  {
    forall r, who, base | r in records ensures !Undoes(r, who, base) {
      assert Settled(r);
    }
    forall r, name | r in records ensures !Restarts(r, name) {
      assert Settled(r);
    }
    forall pid | pid in w.procs ensures w.procs[pid].priority == w.procs[pid].base && PriorityCovered(w, [], pid) {
      assert PriorityCovered(w, records, pid);
    }
    forall name | name in w.watch.services && StopAccepted(name) in w.log
      ensures IsRunning(w, name) && ServiceCovered(w, [], name)
    {
      assert ServiceCovered(w, records, name);
    }
  }

  // ----- Kept while time passes and effects are made -----

  /** Each effect in scope is one that some pending record would undo or account for; closes need a planned one. */
  predicate Justified(records: seq<ExecutedAction>, scope: Scope) {
    && (forall who | who in scope.priorities ::
          exists r | r in records :: r.action.kind.SetPriorityClass? && Target(r.action) == who && Pending(r.state))
    && (forall who | who in scope.closes ::
          exists r | r in records ::
            r.action.kind.GracefulCloseProcess? && Target(r.action) == who && r.state == Planned)
    && (forall name | name in scope.stops :: exists r | r in records :: Restarts(r, name))
  }

  lemma PayloadsStay(w: World, v: World, records: seq<ExecutedAction>, scope: Scope)
    requires Backed(w, records) && Touches(w, v, scope)
    ensures forall r | r in records :: IsWatched(v, r.action) && TruePayload(v, r)
  {
    forall r | r in records ensures IsWatched(v, r.action) && TruePayload(v, r) {
      hide SameTarget;
      assert IsWatched(w, r.action) && TruePayload(w, r);
      if r.action.kind.SetPriorityClass? && Live(v, Target(r.action)) {
        assert ProcessKept(w, r.action.pid, v.procs[r.action.pid], scope);
      }
    }
  }

  lemma PriorityStaysCovered(w: World, v: World, records: seq<ExecutedAction>, scope: Scope, pid: u32)
    requires Backed(w, records) && Touches(w, v, scope) && Justified(records, scope)
    requires forall r | r in records :: TruePayload(v, r)
    requires pid in v.procs
    ensures PriorityCovered(v, records, pid)
  {
    hide SameTarget, Accounted, DistinctRecords, AllStorable;
    var p := v.procs[pid];
    var who := Ident(pid, p.start);
    assert ProcessKept(w, pid, p, scope);
    if p.priority != p.base {
      if who in scope.priorities {
        var r :| r in records && r.action.kind.SetPriorityClass? && Target(r.action) == who && Pending(r.state);
        assert TruePayload(v, r);
        assert Undoes(r, who, p.base);
      } else {
        assert PriorityCovered(w, records, pid);
      }
    }
  }

  lemma ServiceStaysCovered(w: World, v: World, records: seq<ExecutedAction>, scope: Scope, name: string)
    requires Backed(w, records) && Touches(w, v, scope) && Justified(records, scope)
    requires name in v.watch.services && StopAccepted(name) in v.log
    ensures ServiceCovered(v, records, name)
  {
    hide SameTarget, Accounted, DistinctRecords, AllStorable, TruePayload, ProcessKept;
    if name !in scope.stops {
      assert v.log == w.log + v.log[|w.log|..];
      assert !Allowed(StopAccepted(name), scope);
      assert ServiceCovered(w, records, name);
    }
  }

  /** Two records for one effect are one record. */
  lemma OneRecord(records: seq<ExecutedAction>, e: Effect, r: ExecutedAction, q: ExecutedAction)
    requires DistinctRecords(records) && r in records && q in records
    requires DoneFor(e, r.action) && DoneFor(e, q.action)
    ensures r == q
  {
    var i :| 0 <= i < |records| && records[i] == r;
    var j :| 0 <= j < |records| && records[j] == q;
    assert SameTarget(r.action, q.action) && SameTarget(q.action, r.action);
  }

  /** Whatever is new in the log was done for a record that was waiting for it. */
  lemma NewDeedHasRecord(w: World, v: World, records: seq<ExecutedAction>, scope: Scope, e: Effect)
    requires Touches(w, v, scope) && Justified(records, scope)
    requires e in v.log && e !in w.log && Deed(e)
    ensures exists r | r in records ::
              DoneFor(e, r.action) && Pending(r.state) && (e.CloseSent? ==> r.state == Planned)
  {
    hide ProcessKept;
    assert v.log == w.log + v.log[|w.log|..];
    assert Allowed(e, scope);
    match e {
      case PrioritySet(who, _, _) =>
        var r :| r in records && r.action.kind.SetPriorityClass? && Target(r.action) == who && Pending(r.state);
        assert DoneFor(e, r.action);
      case CloseSent(who, _, _, _) =>
        var r :| r in records && r.action.kind.GracefulCloseProcess? && Target(r.action) == who && r.state == Planned;
        assert DoneFor(e, r.action);
      case StopAccepted(name) =>
        var r :| r in records && Restarts(r, name);
        assert DoneFor(e, r.action);
      case StartAccepted(_) =>
    }
  }

  lemma AccountedStays(w: World, v: World, records: seq<ExecutedAction>, scope: Scope)
    requires Accounted(w.log, records) && Touches(w, v, scope) && Justified(records, scope)
    ensures Accounted(v.log, records)
  {
    forall e | e in v.log && Deed(e) ensures exists r | r in records :: DoneFor(e, r.action) {
      if e !in w.log {
        NewDeedHasRecord(w, v, records, scope, e);
      }
    }
  }

  /** What a record tells stays true: nothing more is done for it unless it is pending, and no close unless planned. */
  lemma ToldStays(w: World, v: World, records: seq<ExecutedAction>, scope: Scope, r: ExecutedAction)
    requires DistinctRecords(records) && Touches(w, v, scope) && Justified(records, scope)
    requires r in records && Told(w, r) && IsWatched(w, r.action) && Regular(r)
    ensures Told(v, r)
  {
    hide DistinctRecords, Justified, Deed, UsersWord;
    assert w.log <= v.log;
    assert forall e | e in w.log :: e in v.log;
    forall e | e in v.log && e !in w.log && Deed(e) && DoneFor(e, r.action)
      ensures Pending(r.state) && (e.CloseSent? ==> r.state == Planned)
    {
      NewDeedHasRecord(w, v, records, scope, e);
      var q :| q in records && DoneFor(e, q.action) && Pending(q.state) && (e.CloseSent? ==> q.state == Planned);
      OneRecord(records, e, r, q);
    }
    if r.action.kind.GracefulCloseProcess? && r.state == ActionState.Completed && Live(v, Target(r.action)) {
      WatchedStays(w, v, scope, Target(r.action));
      hide Touches;
      forall e | e in v.log && e.CloseSent? && e.who == Target(r.action) ensures e in w.log {
        assert Deed(e) by { CloseIsDeed(e); }
        assert DoneFor(e, r.action);
      }
    }
  }

  lemma CloseIsDeed(e: Effect)
    requires e.CloseSent?
    ensures Deed(e)
  {
  }

  lemma BackedStays(w: World, v: World, records: seq<ExecutedAction>, scope: Scope)
    requires Backed(w, records) && Touches(w, v, scope) && Justified(records, scope)
    ensures Backed(v, records)
  {
    PayloadsStay(w, v, records, scope);
    AccountedStays(w, v, records, scope);
    forall r | r in records ensures Told(v, r) {
      ToldStays(w, v, records, scope, r);
    }
    hide Told, Accounted, Touches, Justified, DistinctRecords, TruePayload;
    forall pid | pid in v.procs ensures PriorityCovered(v, records, pid) {
      PriorityStaysCovered(w, v, records, scope, pid);
    }
    forall name | name in v.watch.services && StopAccepted(name) in v.log ensures ServiceCovered(v, records, name) {
      ServiceStaysCovered(w, v, records, scope, name);
    }
  }

  lemma BackedWhileQuiet(w: World, v: World, records: seq<ExecutedAction>)
    requires Backed(w, records) && Touches(w, v, NOTHING)
    ensures Backed(v, records)
  {
    BackedStays(w, v, records, NOTHING);
  }

  lemma CleanStays(w: World, v: World, a: OptimizationAction)
    requires Touches(w, v, NOTHING) && IsWatched(w, a) && Clean(w, a)
    ensures Clean(v, a)
  {
    if a.kind.SetPriorityClass? && Live(v, Target(a)) {
      assert ProcessKept(w, a.pid, v.procs[a.pid], NOTHING);
    } else if a.kind.StopServiceTemporary? && StopAccepted(a.serviceName) in v.log {
      assert v.log == w.log + v.log[|w.log|..];
      assert !Allowed(StopAccepted(a.serviceName), NOTHING);
    }
  }

  lemma CoveredWhileQuiet(w: World, v: World)
    requires Covered(w, []) && Touches(w, v, NOTHING)
    ensures Covered(v, [])
  {
    forall pid | pid in v.procs ensures PriorityCovered(v, [], pid) {
      assert ProcessKept(w, pid, v.procs[pid], NOTHING);
      if pid in w.procs { assert PriorityCovered(w, [], pid); }
    }
    forall name | name in v.watch.services && StopAccepted(name) in v.log ensures ServiceCovered(v, [], name) {
      assert v.log == w.log + v.log[|w.log|..];
      assert !Allowed(StopAccepted(name), NOTHING);
      assert ServiceCovered(w, [], name);
    }
  }

  /** A stretch of a run whose effects are all justified by records on disk passes through good worlds only. */
  lemma GoodStays(w: World, v: World, scope: Scope)
    requires Good(w) && Touches(w, v, scope) && NoRepeat(v.log)
    requires if w.file.None? then scope == NOTHING else Justified(w.file.value.actions, scope)
    ensures Good(v)
  {
    hide Covered, NoRepeat, Backed, Justified;
    if w.file.None? {
      CoveredWhileQuiet(w, v);
    } else {
      BackedStays(w, v, w.file.value.actions, scope);
    }
  }

  // ----- Changing the records -----

  /** A new record for a target of its own. */
  lemma RecordAdded(w: World, records: seq<ExecutedAction>, r: ExecutedAction)
    requires Backed(w, records)
    requires ActionStorable(r) && Regular(r) && IsWatched(w, r.action) && TruePayload(w, r) && Told(w, r)
    requires forall i | 0 <= i < |records| :: !SameTarget(records[i].action, r.action)
    ensures Backed(w, records + [r])
  {
    hide SameTarget, TruePayload, ActionStorable, Told;
    var more := records + [r];
    forall i, j | 0 <= i < j < |more| ensures !SameTarget(more[i].action, more[j].action) {
      if j < |records| { assert more[i] == records[i] && more[j] == records[j]; }
    }
    forall pid | pid in w.procs ensures PriorityCovered(w, more, pid) {
      assert PriorityCovered(w, records, pid);
      assert forall q | q in records :: q in more;
    }
    forall name | name in w.watch.services && StopAccepted(name) in w.log ensures ServiceCovered(w, more, name) {
      assert ServiceCovered(w, records, name);
      assert forall q | q in records :: q in more;
    }
    assert Accounted(w.log, more) by {
      forall e | e in w.log && Deed(e) ensures exists q | q in more :: DoneFor(e, q.action) {
        var q :| q in records && DoneFor(e, q.action);
        assert q in more;
      }
    }
  }

  /** A record gets a new state: it may stop being pending only when its target is clean. */
  predicate MayBecome(w: World, before: ExecutedAction, r: ExecutedAction) {
    && r.action == before.action && ActionStorable(r) && Regular(r) && TruePayload(w, r) && Told(w, r)
    && (Pending(r.state) || Clean(w, r.action))
  }

  lemma RecordIn(records: seq<ExecutedAction>, i: nat, r: ExecutedAction, q: ExecutedAction)
    requires i < |records| && q in records
    ensures q == records[i] || q in records[i := r]
  {
    var j :| 0 <= j < |records| && records[j] == q;
    if j != i { assert records[i := r][j] == q; }
  }

  lemma CoveredAfterChange(w: World, records: seq<ExecutedAction>, i: nat, r: ExecutedAction)
    requires Covered(w, records) && i < |records| && MayBecome(w, records[i], r)
    requires TruePayload(w, r)
    ensures Covered(w, records[i := r])
  {
    var changed := records[i := r];
    assert changed[i] == r;
    forall pid | pid in w.procs ensures PriorityCovered(w, changed, pid) {
      var p := w.procs[pid];
      assert PriorityCovered(w, records, pid);
      if p.priority != p.base {
        var q :| q in records && Undoes(q, Ident(pid, p.start), p.base);
        RecordIn(records, i, r, q);
        if q == records[i] { assert Undoes(r, Ident(pid, p.start), p.base); }
      }
    }
    forall name | name in w.watch.services && StopAccepted(name) in w.log ensures ServiceCovered(w, changed, name) {
      assert ServiceCovered(w, records, name);
      if !IsRunning(w, name) {
        var q :| q in records && Restarts(q, name);
        RecordIn(records, i, r, q);
        if q == records[i] { assert Restarts(r, name); }
      }
    }
  }

  lemma RecordChanged(w: World, records: seq<ExecutedAction>, i: nat, r: ExecutedAction)
    requires Backed(w, records) && i < |records| && MayBecome(w, records[i], r)
    ensures Backed(w, records[i := r])
  {
    CoveredAfterChange(w, records, i, r);
    hide SameTarget, TruePayload, ActionStorable, Covered, Clean, Told;
    var changed := records[i := r];
    forall q | q in changed ensures Regular(q) && IsWatched(w, q.action) && TruePayload(w, q) && Told(w, q) {
      if q != r { assert q in records; }
      assert records[i] in records;
    }
    forall k, j | 0 <= k < j < |changed| ensures !SameTarget(changed[k].action, changed[j].action) {
      assert !SameTarget(records[k].action, records[j].action);
    }
    forall e | e in w.log && Deed(e) ensures exists q | q in changed :: DoneFor(e, q.action) {
      var q :| q in records && DoneFor(e, q.action);
      RecordIn(records, i, r, q);
      assert changed[i] == r;
    }
  }

  // ----- At most once over a whole run -----

  /** Effects made for a target no earlier record has, each made once, repeat nothing. */
  lemma NewDeeds(log: seq<Effect>, done: seq<Effect>, records: seq<ExecutedAction>, a: OptimizationAction)
    requires NoRepeat(log) && NoRepeat(done) && Accounted(log, records)
    requires forall e | e in done :: DoneFor(e, a)
    requires forall i | 0 <= i < |records| :: !SameTarget(records[i].action, a)
    ensures NoRepeat(log + done)
  {
    var all := log + done;
    forall i, j | 0 <= i < j < |all| && Deed(all[i]) ensures !SameDeed(all[i], all[j]) {
      if i < |log| <= j {
        var e, f := log[i], done[j - |log|];
        assert DoneFor(f, a) && e in log;
        var r :| r in records && DoneFor(e, r.action);
        assert !SameTarget(r.action, a);
      } else if i >= |log| {
        assert all[i] == done[i - |log|] && all[j] == done[j - |log|];
      }
    }
  }

  /** Putting things back repeats nothing. */
  lemma UndoingRepeatsNothing(log: seq<Effect>, done: seq<Effect>)
    requires NoRepeat(log) && forall e | e in done :: !Deed(e)
    ensures NoRepeat(log + done)
  {
    var all := log + done;
    forall i, j | 0 <= i < j < |all| && Deed(all[i]) ensures !SameDeed(all[i], all[j]) {
      if j >= |log| { assert all[j] == done[j - |log|] && done[j - |log|] in done; }
    }
  }

  lemma PrefixRepeatsNothing(log: seq<Effect>, longer: seq<Effect>)
    requires NoRepeat(longer) && log <= longer
    ensures NoRepeat(log)
  {
    forall i, j | 0 <= i < j < |log| && Deed(log[i]) ensures !SameDeed(log[i], log[j]) {
      assert log[i] == longer[i] && log[j] == longer[j];
    }
  }

  // ----- One step of a run -----

  function RecordsOf(w: World): seq<ExecutedAction> {
    if w.file.None? then [] else w.file.value.actions
  }

  /** `r` waits for `e` to be done; a stop may also come late, when its outcome was already given up. */
  predicate Awaits(r: ExecutedAction, e: Effect) {
    DoneFor(e, r.action) && (r.state == Planned || (e.StopAccepted? && r.state == Uncertain))
  }

  /** What is done is done for a record that is on disk and waits for it. */
  predicate Authorized(w: World, v: World) {
    && w.log <= v.log
    && forall e | e in v.log[|w.log|..] && Deed(e) :: exists r | r in RecordsOf(w) :: Awaits(r, e)
  }

  /** Between two sessions the log starts anew. */
  predicate StartsAnew(w: World, v: World) {
    w.file.None? && v.file.None? && v.log == []
  }

  /** How the state of a record may change. */
  predicate Moves(earlier: ActionState, later: ActionState) {
    match earlier
    case Planned => true
    case Applied => later == Applied || later == Uncertain || later == RolledBack
    case Uncertain => later == Uncertain || later == RolledBack || later == ActionState.Completed
    case _ => later == earlier
  }

  /**
   * How a record on disk may change. No record is ever planned again; what is final, or completed, stays; an uncertain
   * close stays uncertain until the user has acknowledged it.
   */
  predicate Advances(r: ExecutedAction, q: ExecutedAction) {
    && q.action == r.action && Moves(r.state, q.state)
    && (r.state != Planned ==>
          q.originalPriority == r.originalPriority && q.originalServiceState == r.originalServiceState)
    && (Final(r.state) || r.state == ActionState.Completed ==> q == r)
    && (UncertainClose(r) && !UncertainClose(q) ==> q == Acknowledged(r))
  }

  /** How the session file may change: a session starts without records, and gains one at a time. */
  predicate FileAdvances(earlier: Option<Session>, s: Session) {
    match earlier
    case None => s.actions == []
    case Some(o) =>
      && s.id == o.id && s.startTime == o.startTime && s.baseline == o.baseline
      && |o.actions| <= |s.actions| <= |o.actions| + 1
      && (forall i | 0 <= i < |o.actions| :: Advances(o.actions[i], s.actions[i]))
      && (|o.actions| < |s.actions| ==> s.actions[|o.actions|].state in {Planned, Rejected})
  }

  /** The session file goes away only when a report on disk says that everything is undone, and counts every action. */
  predicate Rightful(w: World, v: World) {
    w.file.Some? && v.file.None? ==>
      var s := w.file.value;
      && s.id in v.reports && v.reports[s.id] == Report(TallyOf(s.actions), true)
      && v.reports[s.id].tally.Total() == |s.actions|
      && RollbackComplete(s.actions)
  }

  predicate StepOk(w: World, v: World) {
    && Rightful(w, v) && (Authorized(w, v) || StartsAnew(w, v))
    && (v.file.Some? ==> FileAdvances(w.file, v.file.value))
  }

  lemma FileAdvancesItself(s: Session, state: SessionState)
    ensures FileAdvances(Some(s), s.(state := state)) && FileAdvances(Some(s), s)
  {
  }

  lemma OneRecordAdvances(s: Session, i: nat, r: ExecutedAction)
    requires i < |s.actions| && Advances(s.actions[i], r)
    ensures FileAdvances(Some(s), s.(actions := s.actions[i := r]))
  {
  }

  lemma OneRecordMore(s: Session, r: ExecutedAction)
    requires r.state == Planned || r.state == Rejected
    ensures FileAdvances(Some(s), s.(actions := s.actions + [r]))
  {
  }

  lemma AuthorizedWhileSilent(w: World, v: World)
    requires v.log == w.log
    ensures Authorized(w, v)
  {
  }

  lemma AuthorizedStep(start: World, w: World, v: World, end: World)
    requires Authorized(start, end) && start.log <= w.log <= v.log <= end.log && w.file == start.file
    ensures Authorized(w, v)
  {
    forall e | e in v.log[|w.log|..] && Deed(e) ensures exists r | r in RecordsOf(w) :: Awaits(r, e) {
      var i :| |w.log| <= i < |v.log| && v.log[i] == e;
      assert end.log[|start.log|..][i - |start.log|] == e;
    }
  }

  /** A step that leaves the files alone. */
  lemma StepBetween(start: World, w: World, v: World, end: World)
    requires Authorized(start, end) && start.log <= w.log <= v.log <= end.log
    requires w.file == start.file && v.file == w.file
    ensures StepOk(w, v)
  {
    AuthorizedStep(start, w, v, end);
    hide Authorized;
    if v.file.Some? { FileAdvancesItself(v.file.value, v.file.value.state); }
  }

  // ----- Whole runs -----

  /**
   * Every world is good, so that a crash there can be recovered from, and every step is in order: what is done was
   * planned on disk before, records move forward only, and the session file goes away rightfully.
   */
  ghost predicate Fine(t: Trace) {
    && (forall i | 0 <= i < |t| :: Good(t[i]))
    && (forall i, j | 0 <= i < |t| && 0 <= j < |t| && j == i + 1 :: StepOk(t[i], t[j]))
  }

  /** A run stays fine while it does nothing but what the records on disk justify and wait for. */
  lemma FineOn(a: Trace, b: Trace, scope: Scope)
    requires Fine(a) && Extends(a, b, scope) && NoRepeat(Last(b).log) && Authorized(Last(a), Last(b))
    requires if Last(a).file.None? then scope == NOTHING else Justified(Last(a).file.value.actions, scope)
    ensures Fine(b)
  {
    forall i | |a| - 1 <= i < |b|
      ensures b[i].file == Last(a).file && Last(a).log <= b[i].log <= Last(b).log && Touches(Last(a), b[i], scope)
    {
    }
    assert LogsGrow(b, |a| - 1);
    hide Extends, Touches, NoRepeat, Justified, Good, StepOk, Authorized;
    forall i | 0 <= i < |b| ensures Good(b[i]) {
      if i >= |a| {
        PrefixRepeatsNothing(b[i].log, Last(b).log);
        GoodStays(Last(a), b[i], scope);
      } else {
        assert b[i] == a[i];
      }
    }
    forall i, j | 0 <= i < |b| && 0 <= j < |b| && j == i + 1 ensures StepOk(b[i], b[j]) {
      if j < |a| {
        assert b[i] == a[i] && b[j] == a[j];
      } else {
        StepBetween(Last(a), b[i], b[j], Last(b));
      }
    }
  }

  lemma FineStep(a: Trace, v: World)
    requires Fine(a) && Good(v) && StepOk(Last(a), v)
    ensures Fine(a + [v])
  {
    hide Good, StepOk;
    var b := a + [v];
    forall i, j | 0 <= i < |b| && 0 <= j < |b| && j == i + 1 ensures StepOk(b[i], b[j]) {
      if j < |a| { assert b[i] == a[i] && b[j] == a[j]; }
    }
  }

  /** A crash at any moment leaves a fine run behind. */
  lemma FineCut(a: Trace, n: nat)
    requires Fine(a) && 0 < n <= |a|
    ensures Fine(a[..n])
  {
    hide Good, StepOk;
    var b := a[..n];
    forall i, j | 0 <= i < |b| && 0 <= j < |b| && j == i + 1 ensures StepOk(b[i], b[j]) {
      assert b[i] == a[i] && b[j] == a[j];
    }
  }

  lemma FineWhileQuiet(a: Trace, b: Trace)
    requires Fine(a) && Quiet(a, b)
    ensures Fine(b)
  {
    QuietMeans(a, b);
    AuthorizedWhileSilent(Last(a), Last(b));
    hide Extends, Touches, Authorized;
    assert NoRepeat(Last(b).log) by { assert Good(Last(a)); }
    hide Good, StepOk;
    FineOn(a, b, NOTHING);
  }

  lemma FineMeansGood(t: Trace)
    requires Fine(t)
    ensures Good(Last(t))
  {
  }

  lemma FineMeansBacked(t: Trace)
    requires Fine(t) && Last(t).file.Some?
    ensures Backed(Last(t), Last(t).file.value.actions) && PointStorable(Last(t).file.value.baseline)
  {
    assert Good(Last(t));
  }

  // ----- Files do not matter to what backs them -----

  /** Outside the session file and the reports, nothing was done between `w` and `v`. */
  predicate Passed(w: World, v: World) {
    Touches(w.(file := v.file, reports := v.reports), v, NOTHING)
  }

  lemma PassedQuiet(a: Trace, b: Trace)
    requires Quiet(a, b)
    ensures Passed(Last(a), Last(b))
  {
    QuietMeans(a, b);
    var w, v := Last(a), Last(b);
    assert w.(file := v.file, reports := v.reports) == w;
  }

  lemma BackedWhenPassed(w: World, v: World, records: seq<ExecutedAction>)
    requires Backed(w, records) && Passed(w, v)
    ensures Backed(v, records)
  {
    var u := w.(file := v.file, reports := v.reports);
    assert Backed(u, records) by { BackedIgnoresFiles(w, v.file, v.reports, records); }
    BackedWhileQuiet(u, v, records);
  }

  lemma BackedIgnoresFiles(w: World, file: Option<Session>, reports: map<string, Report>, records: seq<ExecutedAction>)
    requires Backed(w, records)
    ensures Backed(w.(file := file, reports := reports), records)
  {
    hide SameTarget, ActionStorable, UsersWord;
    var u := w.(file := file, reports := reports);
    forall r | r in records ensures IsWatched(u, r.action) && TruePayload(u, r) {
      assert IsWatched(w, r.action) && TruePayload(w, r);
    }
    forall pid | pid in u.procs ensures PriorityCovered(u, records, pid) {
      assert PriorityCovered(w, records, pid);
    }
    forall name | name in u.watch.services && StopAccepted(name) in u.log ensures ServiceCovered(u, records, name) {
      assert ServiceCovered(w, records, name);
    }
  }

  /** A target that no record has was left alone. */
  lemma FreshTargetIsClean(w: World, records: seq<ExecutedAction>, a: OptimizationAction)
    requires Backed(w, records) && forall i | 0 <= i < |records| :: !SameTarget(records[i].action, a)
    ensures Clean(w, a) && !Done(w.log, a)
  {
    assert forall r | r in records :: !SameTarget(r.action, a);
    forall e | e in w.log && Deed(e) ensures !DoneFor(e, a) {
      var r :| r in records && DoneFor(e, r.action);
    }
    hide Told;
    if a.kind.SetPriorityClass? && Live(w, Target(a)) {
      assert PriorityCovered(w, records, a.pid);
    } else if a.kind.StopServiceTemporary? {
      assert forall r | r in records :: !DoneFor(StopAccepted(a.serviceName), r.action);
    }
  }
}
