/** Ending a session by taking every action back: RestoreSession. */
module Restoring {
  import opened Types
  import opened SessionModel
  import opened Completion
  import opened Worlds
  import opened Moments
  import opened Refusals
  import opened Recoverable
  import opened Machines
  import opened Executor
  import opened Evolution
  import opened SessionManager
  import ServiceApi
  import Wire
  import Helper = ElevatedHelper

  /** Between the two logs nothing was done that must not be done twice. */
  predicate OnlyUndone(earlier: seq<Effect>, later: seq<Effect>) {
    earlier <= later && forall e | e in later[|earlier|..] :: !Deed(e)
  }

  lemma OnlyUndoneOn(a: seq<Effect>, b: seq<Effect>, c: seq<Effect>)
    requires OnlyUndone(a, b) && OnlyUndone(b, c)
    ensures OnlyUndone(a, c)
  {
    assert c[|a|..] == b[|a|..] + c[|b|..];
  }

  lemma OnlyUndoneMore(log: seq<Effect>, done: seq<Effect>)
    requires forall e | e in done :: !Deed(e)
    ensures OnlyUndone(log, log + done)
  {
    assert (log + done)[|log|..] == done;
  }

  /** What one rollback leaves behind still backs the machine, both as it is on disk and as it is in memory. */
  lemma RolledBackStaysBacked(
      a: Trace, b: Trace, records: seq<ExecutedAction>, i: nat, r: ExecutedAction, done: seq<Effect>)
    requires Fine(a) && Last(a).file.Some? && Last(a).file.value.actions == records && i < |records|
    requires Extends(a, b, UndoScope(records[i].action))
    requires Pending(records[i].state) || Quiet(a, b)
    requires Last(b).log == Last(a).log + done && forall e | e in done :: !Deed(e)
    requires Evolves(records[i], r) && (r == records[i] || r.state == Uncertain || PutBack(Last(b), records[i]))
    ensures Fine(b) && Backed(Last(b), records[i := r])
  {
    var before, v := records[i], Last(b);
    FineMeansBacked(a);
    ExtendsMeans(a, b, UndoScope(before.action));
    hide Extends, Touches, Good, NoRepeat;
    if r == before && Quiet(a, b) {
      FineWhileQuiet(a, b);
      FineMeansBacked(b);
      assert records[i := r] == records;
    } else {
      assert Pending(before.state);
      assert Justified(records, UndoScope(before.action)) by { assert before in records; }
      UndoingRepeatsNothing(Last(a).log, done) by { assert Good(Last(a)); }
      UndoingIsAuthorized(Last(a), v, done);
      hide Justified, Backed, Authorized, UndoScope, StepOk;
      FineOn(a, b, UndoScope(before.action));
      FineMeansBacked(b);
      RolledBackMayBecome(v, records, i, r);
      RecordChanged(v, records, i, r);
    }
  }

  /** Undoing needs nobody's leave. */
  lemma UndoingIsAuthorized(w: World, v: World, done: seq<Effect>)
    requires v.log == w.log + done && forall e | e in done :: !Deed(e)
    ensures Authorized(w, v)
  {
    assert v.log[|w.log|..] == done;
  }

  lemma RolledBackMayBecome(w: World, records: seq<ExecutedAction>, i: nat, r: ExecutedAction)
    requires Backed(w, records) && i < |records| && Pending(records[i].state)
    requires Evolves(records[i], r) && (r == records[i] || r.state == Uncertain || PutBack(w, records[i]))
    ensures MayBecome(w, records[i], r)
  {
    assert records[i] in records && ActionStorable(records[i]);
  }

  // ----- What keeps a session from being restored -----

  predicate AwaitsUser(r: ExecutedAction) {
    r.action.kind.GracefulCloseProcess? && (r.state == Planned || r.state == Uncertain)
  }

  /** A record that no rollback settles: the user must be asked about it, or its restart was denied. */
  ghost predicate Unrestorable(r: ExecutedAction, p: Moment, q: Moment) {
    var a := r.action;
    || AwaitsUser(r)
    || (a.kind.StopServiceTemporary?
        && Helper.Denied(Wire.START_SERVICE_RESTORE, a.serviceName, a.serviceIdentity, a.timeoutMs, p, q))
  }

  /** A service that was started again was not found running, or is another one. */
  ghost predicate FoundOff(r: ExecutedAction, p: Moment, q: Moment) {
    var a := r.action;
    && a.kind.StopServiceTemporary? && r.originalServiceState == Running && r.state == RolledBack
    && ((exists token :: token != a.serviceIdentity && Heard(p, q, Identity(a.serviceName, token)))
        || exists status: ServiceStatus :: status.state != Running && Heard(p, q, Status(a.serviceName, status)))
  }

  /** What `r` became: a stop only counts as taken back once its service was found running. */
  ghost predicate CameBack(r: ExecutedAction, later: ExecutedAction, p: Moment, q: Moment) {
    && later.action == r.action && later.originalServiceState == r.originalServiceState
    && (r.action.kind.StopServiceTemporary? && later.state == RolledBack ==>
          r.state == RolledBack || Seen(p, q, r.action.serviceName, Running))
  }

  /** The service of `r` ran again, in this restore or in an earlier one, and was then found off. */
  ghost predicate WentOffAgain(r: ExecutedAction, p: Moment, q: Moment) {
    exists mid, later :: Since(p, mid) && Since(mid, q) && CameBack(r, later, p, mid) && FoundOff(later, mid, q)
  }

  /** Why a session with this record is not restored. */
  ghost predicate Spoils(r: ExecutedAction, p: Moment, q: Moment) {
    Unrestorable(r, p, q) || WentOffAgain(r, p, q)
  }

  /** A call failed, or some record cannot be settled. */
  ghost predicate Hampered(records: seq<ExecutedAction>, p: Moment, q: Moment) {
    Troubled(p, q) || exists r | r in records :: Unrestorable(r, p, q)
  }

  ghost predicate Spoiled(records: seq<ExecutedAction>, p: Moment, q: Moment) {
    Troubled(p, q) || exists r | r in records :: Spoils(r, p, q)
  }

  lemma UnrestorableWider(x: ExecutedAction, p: Moment, q: Moment, r: Moment, s: Moment)
    requires Since(p, q) && Since(q, r) && Since(r, s) && Unrestorable(x, q, r)
    ensures Unrestorable(x, p, s)
  {
    hide Since, Helper.Denied;
    var a := x.action;
    if !AwaitsUser(x) {
      Helper.DeniedWider(Wire.START_SERVICE_RESTORE, a.serviceName, a.serviceIdentity, a.timeoutMs, p, q, r, s);
    }
  }

  lemma HamperedWider(records: seq<ExecutedAction>, p: Moment, q: Moment, r: Moment, s: Moment)
    requires Since(p, q) && Since(q, r) && Since(r, s) && Hampered(records, q, r)
    ensures Hampered(records, p, s)
  {
    hide Since, Unrestorable, Troubled;
    if Troubled(q, r) {
      Wider(p, q, r, s);
    } else {
      var x :| x in records && Unrestorable(x, q, r);
      UnrestorableWider(x, p, q, r, s);
    }
  }

  lemma HamperedSpoils(records: seq<ExecutedAction>, p: Moment, q: Moment)
    requires Hampered(records, p, q)
    ensures Spoiled(records, p, q)
  {
    hide Unrestorable, Troubled;
    if !Troubled(p, q) {
      var r :| r in records && Unrestorable(r, p, q);
      assert Spoils(r, p, q);
    }
  }

  lemma SpoiledWider(records: seq<ExecutedAction>, p: Moment, q: Moment, r: Moment, s: Moment)
    requires Since(p, q) && Since(q, r) && Since(r, s) && Spoiled(records, q, r)
    ensures Spoiled(records, p, s)
  {
    hide Since, Unrestorable, Troubled, WentOffAgain;
    if Troubled(q, r) {
      Wider(p, q, r, s);
    } else {
      var x :| x in records && Spoils(x, q, r);
      if Unrestorable(x, q, r) {
        UnrestorableWider(x, p, q, r, s);
      } else {
        WentOffWider(x, p, q, r, s);
      }
      assert Spoils(x, p, s);
    }
  }

  lemma WentOffWider(x: ExecutedAction, p: Moment, q: Moment, r: Moment, s: Moment)
    requires Since(p, q) && Since(q, r) && Since(r, s) && WentOffAgain(x, q, r)
    ensures WentOffAgain(x, p, s)
  {
    hide Since, CameBack, FoundOff;
    var mid, later :| Since(q, mid) && Since(mid, r) && CameBack(x, later, q, mid) && FoundOff(later, mid, r);
    SinceItself(mid);
    SinceOn(p, q, mid);
    SinceOn(mid, r, s);
    CameBackWider(x, later, p, q, mid, mid);
    FoundOffWider(later, mid, mid, r, s);
  }

  lemma CameBackWider(x: ExecutedAction, later: ExecutedAction, p: Moment, q: Moment, r: Moment, s: Moment)
    requires Since(p, q) && Since(q, r) && Since(r, s) && CameBack(x, later, q, r)
    ensures CameBack(x, later, p, s)
  {
    hide Since, Seen;
    if Seen(q, r, x.action.serviceName, Running) {
      SeenWider(p, q, r, s, x.action.serviceName, Running);
    }
  }

  lemma FoundOffWider(x: ExecutedAction, p: Moment, q: Moment, r: Moment, s: Moment)
    requires Since(p, q) && Since(q, r) && Since(r, s) && FoundOff(x, q, r)
    ensures FoundOff(x, p, s)
  {
    hide Since, Heard;
    Wider(p, q, r, s);
  }

  /** Some session could not be saved. */
  ghost predicate Unsaveable(p: Moment, q: Moment) {
    exists session :: Heard(p, q, Unsaved(session))
  }

  /** At the end of its own turn record `i` was on disk, and settled unless something kept it from that meanwhile. */
  ghost predicate HandledIn(r: ExecutedAction, i: nat, p: Moment, q: Moment) {
    var file := Last(q.trace).file;
    && Since(p, q) && file.Some? && i < |file.value.actions| && file.value.actions[i].action == r.action
    && (Settled(file.value.actions[i]) || Troubled(p, q) || Unrestorable(r, p, q))
  }

  /** The records from `rest` on had their turns, one after the other from the last, whatever became of the others. */
  ghost predicate GoneThrough(records: seq<ExecutedAction>, times: seq<Moment>, rest: nat, p: Moment, q: Moment) {
    && rest <= |records| && |times| == |records| + 1 && Since(p, times[|records|]) && Since(times[rest], q)
    && forall i | rest <= i < |records| :: HandledIn(records[i], i, times[i + 1], times[i])
  }

  /** Every record had its turn. */
  ghost predicate AllTried(records: seq<ExecutedAction>, p: Moment, q: Moment) {
    exists times :: GoneThrough(records, times, 0, p, q)
  }

  lemma GoneThroughOn(
      records: seq<ExecutedAction>, times: seq<Moment>, i: nat, p: Moment, q: Moment, r: Moment)
    requires i < |records| && GoneThrough(records, times, i + 1, p, q) && times[i + 1] == q
    requires HandledIn(records[i], i, q, r)
    ensures GoneThrough(records, times[i := r], i, p, r)
  {
    hide HandledIn, Since;
    SinceItself(r);
    var more := times[i := r];
    forall j | i <= j < |records| ensures HandledIn(records[j], j, more[j + 1], more[j]) {
    }
  }

  lemma GoneThroughWider(
      records: seq<ExecutedAction>, times: seq<Moment>, rest: nat, p: Moment, q: Moment, r: Moment, s: Moment)
    requires GoneThrough(records, times, rest, q, r) && Since(p, q) && Since(r, s)
    ensures GoneThrough(records, times, rest, p, s)
  {
    hide HandledIn, Since;
    SinceOn(p, q, times[|records|]);
    SinceOn(times[rest], r, s);
  }

  /** One turn of the rollback loop: take a record back and save. */
  method TakeBack(m: Machine, session: Session, i: nat) returns (next: Session, ok: bool, saved: bool)
    requires m.Valid() && Fine(m.trace) && m.Now().file == Some(session) && i < |session.actions|
    modifies m
    ensures m.Valid() && Fine(m.trace) && old(m.trace) <= m.trace
    ensures |next.actions| == |session.actions| && next == session.(actions := session.actions[i := next.actions[i]])
    ensures Evolves(session.actions[i], next.actions[i])
    ensures ok ==> Settled(next.actions[i])
    ensures Since(old(m.At()), m.At()) && CameBack(session.actions[i], next.actions[i], old(m.At()), m.At())
    ensures !ok ==> Troubled(old(m.At()), m.At()) || Unrestorable(session.actions[i], old(m.At()), m.At())
    ensures !saved ==> Troubled(old(m.At()), m.At()) && Unsaveable(old(m.At()), m.At())
    ensures Backed(m.Now(), next.actions) && PointStorable(next.baseline)
    ensures m.Now().file == Some(if saved then next else session) && FileAdvances(m.Now().file, next)
    ensures OnlyUndone(old(m.Now()).log, m.Now().log)
    ensures forall j | |old(m.trace)| <= j < |m.trace| ::
              m.trace[j].file == Some(session) || m.trace[j].file == Some(next)
  {
    hide Fine, Backed, PointStorable, Passed, OnlyUndone, Evolves, Settled, FileAdvances, Advances, Since, CameBack,
         Unrestorable;
    ghost var before := m.At();
    var after: ExecutedAction;
    ok, after := TakeBackInMemory(m, session, i);
    ghost var taken := m.At();
    next := session.(actions := session.actions[i := after]);
    OneRecordAdvances(session, i, after);
    FileAdvancesItself(next, next.state);
    saved := Persist(m, next);
    SinceItself(before);
    SinceOn(before, taken, m.At());
    CameBackWider(session.actions[i], after, before, before, taken, m.At());
    if !saved { NotSaved(next, before, taken, m.At()); }
    if !ok { TroubleOrNot(session.actions[i], before, taken, m.At()); }
  }

  lemma NotSaved(session: Session, p: Moment, q: Moment, r: Moment)
    requires Since(p, q) && Since(q, r) && Troubled(q, r) && Heard(q, r, Unsaved(session))
    ensures Troubled(p, r) && Unsaveable(p, r)
  {
    hide Heard, Since, Troubled;
    SinceItself(r);
    Wider(p, q, r, r);
  }

  lemma TroubleOrNot(r: ExecutedAction, p: Moment, q: Moment, s: Moment)
    requires Since(p, q) && Since(q, s) && (Troubled(p, q) || Unrestorable(r, p, q))
    ensures Troubled(p, s) || Unrestorable(r, p, s)
  {
    hide Since, Unrestorable, Troubled;
    SinceItself(p);
    Wider(p, p, q, s);
    if Unrestorable(r, p, q) { UnrestorableWider(r, p, p, q, s); }
  }

  /** What may be relied on when a record is taken back. */
  lemma RecordIsSound(w: World, records: seq<ExecutedAction>, i: nat)
    requires Backed(w, records) && i < |records|
    ensures var r := records[i];
            && IsWatched(w, r.action) && Regular(r)
            && (Pending(r.state) || Final(r.state)
                || (r.state == ActionState.Completed && !IsReversible(r.action.kind)))
            && (r.action.kind.SetPriorityClass? && Pending(r.state) ==>
                  r.originalPriority != 0 && r.action.startTime != 0)
            && (r.action.kind.GracefulCloseProcess? && Pending(r.state) ==> AwaitsUser(r))
            && (r.action.kind.StopServiceTemporary? ==>
                  && r.originalServiceState == Running && r.action.serviceName != "" && r.action.serviceIdentity != "")
            && (r.action.kind.SetPriorityClass? || r.action.kind.GracefulCloseProcess?
                || r.action.kind.StopServiceTemporary?)
  {
    assert records[i] in records && ActionStorable(records[i]);
  }

  /** The rollback itself; the file still holds the old record. */
  method TakeBackInMemory(m: Machine, session: Session, i: nat) returns (ok: bool, after: ExecutedAction)
    requires m.Valid() && Fine(m.trace) && m.Now().file == Some(session) && i < |session.actions|
    modifies m
    ensures m.Valid() && Fine(m.trace) && old(m.trace) <= m.trace
    ensures Evolves(session.actions[i], after) && Advances(session.actions[i], after) && (ok ==> Settled(after))
    ensures Since(old(m.At()), m.At()) && CameBack(session.actions[i], after, old(m.At()), m.At())
    ensures !ok ==> Troubled(old(m.At()), m.At()) || Unrestorable(session.actions[i], old(m.At()), m.At())
    ensures Backed(m.Now(), session.actions[i := after]) && PointStorable(session.baseline)
    ensures m.Now().file == Some(session) && OnlyUndone(old(m.Now()).log, m.Now().log)
    ensures forall j | |old(m.trace)| <= j < |m.trace| :: m.trace[j].file == Some(session)
  {
    hide Extends, Touches, Fine, Backed, Quiet, PointStorable, Sane, IsWatched, OnlyUndone, Since, Helper.Denied, Seen;
    ghost var before := m.trace;
    var r := session.actions[i];
    FineMeansBacked(before);
    RecordIsSound(m.Now(), session.actions, i);
    ghost var done: seq<Effect>;
    ok, after, done := Rollback(m, r);
    ExtendsMeans(before, m.trace, UndoScope(r.action));
    EvolvingAdvances(r, after);
    hide Advances;
    RolledBackStaysBacked(before, m.trace, session.actions, i, after, done);
    ExtendsFiles(before, m.trace, UndoScope(r.action));
    OnlyUndoneMore(Last(before).log, done);
  }

  lemma ExtendsFiles(a: Trace, b: Trace, scope: Scope)
    requires Extends(a, b, scope)
    ensures a <= b && forall i | |a| <= i < |b| :: b[i].file == Last(a).file
  {
    assert forall i | |a| <= i < |b| :: Touches(Last(a), b[i], scope);
  }

  /**
   * The state of a restore: every moment was recoverable, the file only evolved since `from`, nothing was done but
   * undoing, and the session in memory backs the machine too.
   */
  ghost predicate InRestore(t: Trace, from: nat, original: seq<ExecutedAction>, log: seq<Effect>, session: Session) {
    && Fine(t) && Last(t).file.Some? && from < |t|
    && FilesEvolve(t, from, original) && AllEvolve(original, session.actions)
    && OnlyUndone(log, Last(t).log) && FileAdvances(Last(t).file, session)
    && Backed(Last(t), session.actions) && PointStorable(session.baseline)
  }

  lemma InRestoreWhileQuiet(
      a: Trace, b: Trace, from: nat, original: seq<ExecutedAction>, log: seq<Effect>, session: Session)
    requires InRestore(a, from, original, log, session) && Quiet(a, b)
    ensures InRestore(b, from, original, log, session)
    ensures a <= b && Last(b).file == Last(a).file && Last(b).log == Last(a).log
  {
    hide Extends, Fine, Backed, OnlyUndone, AllEvolve, FilesEvolve, Passed, Touches, FileAdvances;
    QuietMeans(a, b);
    FineWhileQuiet(a, b);
    PassedQuiet(a, b);
    BackedWhenPassed(Last(a), Last(b), session.actions);
    FilesEvolveQuiet(a, b, NOTHING, from, original);
  }

  /** The state of the session itself is free. */
  lemma InRestoreWithState(
      t: Trace, from: nat, original: seq<ExecutedAction>, log: seq<Effect>, session: Session, state: SessionState)
    requires InRestore(t, from, original, log, session)
    ensures InRestore(t, from, original, log, session.(state := state))
  {
    hide Fine, Backed, OnlyUndone, AllEvolve, FilesEvolve, PointStorable;
  }

  /** Saves the session with a new state of its own. */
  method Note(
      m: Machine, session: Session, ghost from: nat, ghost original: seq<ExecutedAction>, ghost log: seq<Effect>)
    returns (ok: bool)
    requires m.Valid() && InRestore(m.trace, from, original, log, session)
    modifies m
    ensures m.Valid() && InRestore(m.trace, from, original, log, session)
    ensures old(m.trace) <= m.trace && m.Now().log == old(m.Now().log)
    ensures ok ==> m.Now().file == Some(session)
    ensures m.Failures() == old(m.Failures()) + if ok then 0 else 1
    ensures Since(old(m.At()), m.At()) && (!ok ==> Heard(old(m.At()), m.At(), Unsaved(session)))
  {
    hide Fine, Backed, OnlyUndone, AllEvolve, FilesEvolve, Passed, PointStorable, FileAdvances;
    ghost var before := m.trace;
    ok := Persist(m, session);
    FilesEvolveSave(before, m.trace, from, original, session);
    FileAdvancesItself(session, session.state);
  }

  /** One record further, on disk and in memory. */
  lemma InRestoreNext(
      a: Trace, b: Trace, from: nat, original: seq<ExecutedAction>, log: seq<Effect>, was: Session, i: nat,
      next: Session)
    requires InRestore(a, from, original, log, was) && i < |was.actions| == |next.actions|
    requires next == was.(actions := was.actions[i := next.actions[i]]) && Evolves(was.actions[i], next.actions[i])
    requires Fine(b) && a <= b && Backed(Last(b), next.actions) && PointStorable(next.baseline)
    requires Last(b).file.Some? && FileAdvances(Last(b).file, next) && OnlyUndone(Last(a).log, Last(b).log)
    requires forall j | |a| <= j < |b| :: b[j].file == Last(a).file || b[j].file == Some(next)
    ensures InRestore(b, from, original, log, next)
  {
    hide Fine, Backed, OnlyUndone, AllEvolve, FilesEvolve, PointStorable, FileAdvances, Evolves;
    AllEvolveStep(original, was.actions, i, next.actions[i]);
    FilesEvolveSave(a, b, from, original, next);
    OnlyUndoneOn(log, Last(a).log, Last(b).log);
  }

  /** The rollback loop: every record is taken back, last one first, with a save after each. */
  method TakeAllBack(
      m: Machine, session: Session, ghost from: nat, ghost original: seq<ExecutedAction>, ghost log: seq<Effect>)
    returns (next: Session, success: bool, ghost times: seq<Moment>, ghost rest: nat)
    requires m.Valid() && InRestore(m.trace, from, original, log, session) && m.Now().file == Some(session)
    modifies m
    ensures m.Valid() && InRestore(m.trace, from, original, log, next) && old(m.trace) <= m.trace
    ensures GoneThrough(session.actions, times, rest, old(m.At()), m.At())
    ensures rest > 0 ==> Unsaveable(old(m.At()), m.At())
    ensures next == session.(actions := next.actions)
    ensures success ==> m.Now().file == Some(next) && RollbackComplete(next.actions)
    ensures |next.actions| == |session.actions|
    ensures forall i | 0 <= i < |session.actions| :: next.actions[i].action == session.actions[i].action
    ensures Since(old(m.At()), m.At()) && AllCameBack(session.actions, next.actions, 0, old(m.At()), m.At())
    ensures !success ==> Hampered(session.actions, old(m.At()), m.At())
  {
    hide Fine, Backed, OnlyUndone, AllEvolve, FilesEvolve, PointStorable, FileAdvances, Since, Unrestorable, Hampered,
         AllCameBack, CameBack, InRestore, TakenBack, Evolves, Settled, RollbackComplete, Sane, Troubled, GoneThrough,
         HandledIn, Unsaveable;
    next, success := session, true;
    var i := |session.actions|;
    ghost var before := m.At();
    SinceItself(before);
    times, rest := seq(i + 1, _ => before), i;
    NobodyHadATurn(session.actions, times, before);
    NobodyCameBack(session.actions, before);
    InRestoreMeans(m.trace, from, original, log, session);
    NothingTakenBack(session.actions);
    while i > 0
      invariant 0 <= i <= |next.actions| && next == session.(actions := next.actions)
      invariant m.Valid() && InRestore(m.trace, from, original, log, next) && Fine(m.trace)
      invariant old(m.trace) <= m.trace && m.Now().file == Some(next)
      invariant TakenBack(session.actions, next.actions, i, success) && |next.actions| == |session.actions|
      invariant Since(before, m.At()) && AllCameBack(session.actions, next.actions, i, before, m.At())
      invariant !success ==> Hampered(session.actions, before, m.At())
      invariant GoneThrough(session.actions, times, rest, before, m.At())
      invariant rest == i && |times| == |session.actions| + 1 && times[i] == m.At()
    {
      i := i - 1;
      ghost var entered, was, started := m.trace, next, m.At();
      NotYetTakenBack(session.actions, next.actions, i, success);
      var ok, saved: bool;
      next, ok, saved := TakeBack(m, next, i);
      TakenBackOn(session.actions, was.actions, i, next.actions[i], success, ok);
      InRestoreNext(entered, m.trace, from, original, log, was, i, next);
      OneMoreCameBack(session.actions, was.actions, i, next.actions[i], before, started, m.At());
      HamperedOn(session.actions, i, !success, !ok || !saved, before, started, m.At());
      if !ok {
        success := false;
      }
      if !saved {
        success := false;
        LeftUnsaved(session.actions, times, rest, before, started, m.At());
        break;
      }
      HadItsTurn(session, was, next, i, ok, started, m.At());
      GoneThroughOn(session.actions, times, i, before, started, m.At());
      times, rest := times[i := m.At()], i;
    }
    LoopLeft(session.actions, next.actions, i, success, before, m.At());
  }

  lemma NobodyHadATurn(records: seq<ExecutedAction>, times: seq<Moment>, p: Moment)
    requires |times| == |records| + 1 && times[|records|] == p
    ensures GoneThrough(records, times, |records|, p, p)
  {
    SinceItself(p);
  }

  lemma LeftUnsaved(
      records: seq<ExecutedAction>, times: seq<Moment>, rest: nat, p: Moment, q: Moment, r: Moment)
    requires GoneThrough(records, times, rest, p, q) && Since(p, q) && Since(q, r) && Unsaveable(q, r)
    ensures GoneThrough(records, times, rest, p, r) && Unsaveable(p, r)
  {
    hide HandledIn, Since, Heard;
    SinceItself(p);
    SinceItself(r);
    GoneThroughWider(records, times, rest, p, p, q, r);
    Wider(p, q, r, r);
  }

  lemma HadItsTurn(session: Session, was: Session, next: Session, i: nat, ok: bool, p: Moment, q: Moment)
    requires i < |session.actions| == |was.actions| == |next.actions| && was.actions[i] == session.actions[i]
    requires Since(p, q) && Last(q.trace).file == Some(next) && Evolves(was.actions[i], next.actions[i])
    requires ok ==> Settled(next.actions[i])
    requires !ok ==> Troubled(p, q) || Unrestorable(was.actions[i], p, q)
    ensures HandledIn(session.actions[i], i, p, q)
  {
    hide Since, Settled, Troubled, Unrestorable;
  }

  lemma NothingTakenBack(records: seq<ExecutedAction>)
    ensures TakenBack(records, records, |records|, true)
  {
  }

  lemma NotYetTakenBack(was: seq<ExecutedAction>, now: seq<ExecutedAction>, i: nat, success: bool)
    requires TakenBack(was, now, i + 1, success) && i < |was|
    ensures now[i] == was[i]
  {
  }

  lemma LoopLeft(
      was: seq<ExecutedAction>, now: seq<ExecutedAction>, i: nat, success: bool, p: Moment, q: Moment)
    requires TakenBack(was, now, i, success) && AllCameBack(was, now, i, p, q) && (success ==> i == 0)
    ensures forall j | 0 <= j < |was| :: now[j].action == was[j].action
    ensures success ==> RollbackComplete(now)
    ensures AllCameBack(was, now, 0, p, q)
  {
    hide Settled;
  }

  /** The records from `i` on were taken back, successfully if `success`; those before wait unchanged. */
  ghost predicate TakenBack(was: seq<ExecutedAction>, now: seq<ExecutedAction>, i: nat, success: bool) {
    && |now| == |was|
    && (forall j | 0 <= j < |was| :: now[j].action == was[j].action && (j < i ==> now[j] == was[j]))
    && (success ==> forall j | i <= j < |now| :: Settled(now[j]))
  }

  /** Whoever has been taken back came back; the others are as they were. */
  ghost predicate AllCameBack(
      records: seq<ExecutedAction>, later: seq<ExecutedAction>, i: nat, p: Moment, q: Moment)
  {
    && |later| == |records| && (forall j | 0 <= j < i && j < |later| :: later[j] == records[j])
    && forall j | i <= j < |records| :: CameBack(records[j], later[j], p, q)
  }

  lemma NobodyCameBack(records: seq<ExecutedAction>, p: Moment)
    ensures AllCameBack(records, records, |records|, p, p)
  {
  }

  lemma OneMoreCameBack(
      records: seq<ExecutedAction>, was: seq<ExecutedAction>, i: nat, r: ExecutedAction,
      p: Moment, q: Moment, s: Moment)
    requires i < |records| && AllCameBack(records, was, i + 1, p, q) && Since(p, q) && Since(q, s)
    requires CameBack(was[i], r, q, s)
    ensures AllCameBack(records, was[i := r], i, p, s) && Since(p, s)
  {
    hide Since, CameBack;
    SinceOn(p, q, s);
    SinceItself(p);
    SinceItself(s);
    CameBackWider(records[i], r, p, q, s, s);
    forall j | i < j < |records| ensures CameBack(records[j], was[j], p, s) {
      CameBackWider(records[j], was[j], p, p, q, s);
    }
  }

  lemma HamperedOn(
      records: seq<ExecutedAction>, i: nat, already: bool, now: bool, p: Moment, q: Moment, s: Moment)
    requires i < |records| && Since(p, q) && Since(q, s)
    requires already ==> Hampered(records, p, q)
    requires now ==> Troubled(q, s) || Unrestorable(records[i], q, s)
    ensures already || now ==> Hampered(records, p, s)
  {
    hide Since, Unrestorable, Troubled, Hampered;
    SinceItself(p);
    SinceItself(s);
    if already {
      HamperedWider(records, p, p, q, s);
    } else if now {
      HamperedBy(records, i, q, s);
      HamperedWider(records, p, q, s, s);
    }
  }

  lemma HamperedBy(records: seq<ExecutedAction>, i: nat, p: Moment, q: Moment)
    requires i < |records| && (Troubled(p, q) || Unrestorable(records[i], p, q))
    ensures Hampered(records, p, q)
  {
    hide Unrestorable;
    assert records[i] in records;
  }

  lemma TakenBackOn(
      was: seq<ExecutedAction>, now: seq<ExecutedAction>, i: nat, r: ExecutedAction, success: bool, ok: bool)
    requires i < |now| && TakenBack(was, now, i + 1, success) && Evolves(now[i], r) && (ok ==> Settled(r))
    ensures TakenBack(was, now[i := r], i, success && ok) && TakenBack(was, now[i := r], i, false)
  {
    hide Settled;
  }

  predicate RestartedRuns(w: World, r: ExecutedAction) {
    r.action.kind.StopServiceTemporary? && r.originalServiceState == Running && r.state == RolledBack
    && r.action.serviceName in w.watch.services ==>
      IsRunning(w, r.action.serviceName)
  }

  lemma RestartedStaysRunning(a: Trace, b: Trace, records: seq<ExecutedAction>)
    requires Quiet(a, b) && forall r | r in records :: RestartedRuns(Last(a), r)
    ensures forall r | r in records :: RestartedRuns(Last(b), r)
  {
    QuietMeans(a, b);
    forall r | r in records ensures RestartedRuns(Last(b), r) {
      assert RestartedRuns(Last(a), r);
    }
  }

  /** After a restore, each service that was started again must be found Running, and be the same service. */
  method VerifyServices(m: Machine, records: seq<ExecutedAction>) returns (ok: bool)
    requires m.Valid()
    modifies m
    ensures m.Valid() && Quiet(old(m.trace), m.trace)
    ensures ok ==> forall r | r in records :: RestartedRuns(m.Now(), r)
    ensures Since(old(m.At()), m.At())
    ensures !ok ==>
              || Troubled(old(m.At()), m.At())
              || exists r | r in records ::
                   || FoundOff(r, old(m.At()), m.At())
                   || (r.action.kind.StopServiceTemporary? && r.action.serviceName == "")
  {
    QuietItself(m.trace);
    ghost var before, began := m.trace, m.At();
    SinceItself(began);
    hide Extends, Touches, Sane, Quiet, Since, FoundOff, Described;
    for i := 0 to |records|
      invariant m.Valid() && Quiet(before, m.trace) && Since(began, m.At())
      invariant forall r | r in records[..i] :: RestartedRuns(m.Now(), r)
    {
      var r := records[i];
      assert r in records && records[..i + 1] == records[..i] + [r];
      if r.action.kind.StopServiceTemporary? && r.originalServiceState == Running && r.state == RolledBack {
        ghost var entered, asking := m.trace, m.At();
        var service, code := ServiceApi.Query(m, r.action.serviceName);
        QuietOn(before, entered, m.trace);
        RestartedStaysRunning(entered, m.trace, records[..i]);
        NotAsRestarted(r, service, began, asking, m.At());
        if service.None? || service.value.state != Running || !service.value.identityVerified
           || service.value.identityToken != r.action.serviceIdentity {
          return false;
        }
      }
    }
    assert records[..|records|] == records;
    return true;
  }

  lemma NotAsRestarted(r: ExecutedAction, service: Option<ServiceSnapshot>, p: Moment, q: Moment, s: Moment)
    requires Since(p, q) && Since(q, s)
    requires r.action.kind.StopServiceTemporary? && r.originalServiceState == Running && r.state == RolledBack
    requires service.None? && r.action.serviceName != "" ==> Troubled(q, s)
    requires service.Some? ==> service.value.name == r.action.serviceName && Described(q, s, service.value)
    ensures Since(p, s)
    ensures service.None? || service.value.state != Running || !service.value.identityVerified
            || service.value.identityToken != r.action.serviceIdentity ==>
              Troubled(p, s) || FoundOff(r, p, s) || r.action.serviceName == ""
  {
    hide Since, Heard;
    SinceOn(p, q, s);
    SinceItself(s);
    Wider(p, q, s, s);
  }

  lemma NobodyAwaits(original: seq<ExecutedAction>, later: seq<ExecutedAction>)
    requires AllEvolve(original, later) && RollbackComplete(later)
    ensures forall r | r in original :: !AwaitsUser(r)
  {
    forall r | r in original ensures !AwaitsUser(r) {
      var i :| 0 <= i < |original| && original[i] == r;
      assert Evolves(original[i], later[i]) && Settled(later[i]);
    }
  }

  /**
   * RestoreSession. When it exits with 0 the session is over and the machine is as it was; until then every moment can
   * be recovered from. It undoes and does nothing else, and never settles a close that may have been delivered. A
   * session is restored unless a call fails, a close waits for the user, or a restart was denied or did not last.
   */
  method RestoreSession(m: Machine, recoveryCommand: bool) returns (exit: int)
    requires m.Valid() && Fine(m.trace)
    modifies m
    ensures m.Valid() && Fine(m.trace) && old(m.trace) <= m.trace
    ensures exit == 0 || exit == 2
    ensures exit == 0 ==> m.Now().file.None? && Restored(m.Now())
    ensures OnlyUndone(old(m.Now()).log, m.Now().log)
    ensures old(m.Now()).file.None? ==> Quiet(old(m.trace), m.trace)
    ensures old(m.Now()).file.Some? ==>
              && FilesEvolve(m.trace, |old(m.trace)| - 1, old(m.Now()).file.value.actions)
              && (exit == 0 ==> forall r | r in old(m.Now()).file.value.actions :: !AwaitsUser(r))
              && (exit == 2 ==> m.Now().file.Some?)
              && (exit == 2 ==> Spoiled(old(m.Now()).file.value.actions, old(m.At()), m.At()))
              && (|| AllTried(old(m.Now()).file.value.actions, old(m.At()), m.At())
                  || Unsaveable(old(m.At()), m.At()) || Heard(old(m.At()), m.At(), Unread))
    ensures Since(old(m.At()), m.At())
  {
    hide Extends, Touches, Sane, Fine, Backed, AllEvolve, FilesEvolve, PointStorable, OnlyUndone, Restored, Since,
         Spoils, InRestore, FileAdvances, Quiet, AllTried, Unsaveable, Heard;
    ghost var before, began := m.trace, m.At();
    ghost var from, log := |before| - 1, m.Now().log;
    QuietItself(before);
    OnlyUndoneMore(log, []);
    assert log + [] == log;
    var loaded := m.LoadActive();
    ghost var read := m.At();
    QuietMeans(before, m.trace);
    FineWhileQuiet(before, m.trace);
    FilesEvolveAtStart(before, m.trace);
    if loaded.None? {
      ghost var asked := m.trace;
      var present := m.HasActiveSession();
      QuietOn(before, asked, m.trace);
      QuietMeans(before, m.trace);
      SinceOn(began, read, m.At());
      StillUnread(began, read, m.At());
      FineWhileQuiet(asked, m.trace);
      FilesEvolveAtStart(before, m.trace);
      if !present { NoFileMeansRestored(m.Now()) by { FineMeansGood(m.trace); } }
      return if present then 2 else 0;
    }
    var session := loaded.value.(state := Recovering);
    InRestoreStarts(m.trace, from, log, loaded.value);
    exit := RestoreLoaded(m, session, recoveryCommand, from, session.actions, log);
    SinceOn(began, read, m.At());
    SinceItself(m.At());
    TriedWider(session.actions, began, read, m.At());
    if exit == 2 {
      SpoiledWider(session.actions, began, read, m.At(), m.At());
    }
  }

  lemma StillUnread(p: Moment, q: Moment, r: Moment)
    requires Since(p, q) && Since(q, r)
    ensures Heard(p, q, Unread) ==> Heard(p, r, Unread)
  {
    hide Since, Heard;
    SinceItself(p);
    Wider(p, p, q, r);
  }

  lemma TriedWider(records: seq<ExecutedAction>, p: Moment, q: Moment, r: Moment)
    requires Since(p, q) && Since(q, r) && (AllTried(records, q, r) || Unsaveable(q, r))
    ensures AllTried(records, p, r) || Unsaveable(p, r)
  {
    hide GoneThrough, Since, Heard;
    SinceItself(r);
    if AllTried(records, q, r) {
      var times :| GoneThrough(records, times, 0, q, r);
      GoneThroughWider(records, times, 0, p, q, r, r);
    } else {
      Wider(p, q, r, r);
    }
  }

  lemma InRestoreStarts(t: Trace, from: nat, log: seq<Effect>, loaded: Session)
    requires Fine(t) && from < |t| && Last(t).file == Some(loaded) && FilesEvolve(t, from, loaded.actions)
    requires OnlyUndone(log, Last(t).log)
    ensures InRestore(t, from, loaded.actions, log, loaded.(state := Recovering))
  {
    hide Fine, Backed, OnlyUndone, AllEvolve, FilesEvolve, PointStorable;
    FineMeansBacked(t);
    AllEvolveRefl(loaded.actions);
    FileAdvancesItself(loaded, Recovering);
  }

  lemma AllEvolveRefl(records: seq<ExecutedAction>)
    ensures AllEvolve(records, records)
  {
  }

  lemma FilesEvolveAtStart(a: Trace, b: Trace)
    requires Quiet(a, b)
    ensures Last(a).file.Some? ==> FilesEvolve(b, |a| - 1, Last(a).file.value.actions)
  {
    QuietMeans(a, b);
    if Last(a).file.Some? {
      var records := Last(a).file.value.actions;
      AllEvolveRefl(records);
      FilesEvolveQuiet(a, b, NOTHING, |a| - 1, records);
    }
  }

  lemma CompleteEvolves(
      a: Trace, b: Trace, from: nat, original: seq<ExecutedAction>, log: seq<Effect>, session: Session)
    requires InRestore(a, from, original, log, session) && a <= b
    requires forall i | |a| <= i < |b| :: b[i].file == Some(session) || b[i].file.None?
    ensures FilesEvolve(b, from, original)
  {
    hide AllEvolve, Fine, Backed;
    forall i | from <= i < |b| ensures b[i].file.None? || AllEvolve(original, b[i].file.value.actions) {
      if i < |a| { assert b[i] == a[i]; }
    }
  }

  lemma InRestoreMeans(t: Trace, from: nat, original: seq<ExecutedAction>, log: seq<Effect>, session: Session)
    requires InRestore(t, from, original, log, session)
    ensures Fine(t) && OnlyUndone(log, Last(t).log) && FilesEvolve(t, from, original) && Last(t).file.Some?
    ensures AllEvolve(original, session.actions)
  {
  }

  /** Leaves the session in Safe Mode, for another restore. */
  method GiveUp(
      m: Machine, session: Session, ghost from: nat, ghost original: seq<ExecutedAction>, ghost log: seq<Effect>)
    requires m.Valid() && InRestore(m.trace, from, original, log, session)
    modifies m
    ensures m.Valid() && old(m.trace) <= m.trace && Since(old(m.At()), m.At())
    ensures Fine(m.trace) && OnlyUndone(log, m.Now().log) && FilesEvolve(m.trace, from, original)
    ensures m.Now().file.Some?
  {
    InRestoreWithState(m.trace, from, original, log, session, SafeMode);
    hide InRestore, Fine, OnlyUndone, FilesEvolve;
    var saved := Note(m, session.(state := SafeMode), from, original, log);
    InRestoreMeans(m.trace, from, original, log, session.(state := SafeMode));
  }

  /** The rest of RestoreSession, once the session is loaded. */
  method RestoreLoaded(
      m: Machine, loaded: Session, recoveryCommand: bool, ghost from: nat, ghost original: seq<ExecutedAction>,
      ghost log: seq<Effect>)
    returns (exit: int)
    requires m.Valid() && InRestore(m.trace, from, original, log, loaded)
    modifies m
    ensures m.Valid() && old(m.trace) <= m.trace
    ensures Fine(m.trace) && OnlyUndone(log, m.Now().log) && FilesEvolve(m.trace, from, original)
    ensures exit == 0 || exit == 2
    ensures exit == 0 ==> m.Now().file.None? && Restored(m.Now()) && forall r | r in original :: !AwaitsUser(r)
    ensures exit == 2 ==> m.Now().file.Some?
    ensures Since(old(m.At()), m.At()) && (exit == 2 ==> Spoiled(loaded.actions, old(m.At()), m.At()))
    ensures AllTried(loaded.actions, old(m.At()), m.At()) || Unsaveable(old(m.At()), m.At())
  {
    hide Extends, Touches, Sane, Fine, FilesEvolve, OnlyUndone, Restored, Quiet, InRestore, RollbackComplete, Since,
         Spoils, Hampered, AllCameBack, FoundOff, GoneThrough, AllTried, Unsaveable, Heard;
    ghost var before := m.At();
    var session := loaded;
    var saved := Note(m, session, from, original, log);
    InRestoreMeans(m.trace, from, original, log, session);
    if !saved {
      UnsaveableBy(session, before, m.At());
      return 2;
    }
    ghost var entered, noted := m.trace, m.At();
    if !recoveryCommand {
      // Evidence of the optimized state; a failure only costs the report its measurements.
      var evidence := m.Sample();
      QuietMeans(entered, m.trace);
      InRestoreWhileQuiet(entered, m.trace, from, original, log, session);
      SinceOn(before, noted, m.At());
    }
    ghost var ready := m.At();
    var success: bool;
    ghost var times, rest;
    session, success, times, rest := TakeAllBack(m, session, from, original, log);
    ghost var taken := m.At();
    SinceOn(before, ready, taken);
    if !success {
      GiveUp(m, session, from, original, log);
      SinceOn(before, taken, m.At());
      HamperedWider(loaded.actions, before, ready, taken, m.At());
      HamperedSpoils(loaded.actions, before, m.At());
      TriedAll(loaded.actions, times, rest, before, ready, taken, m.At());
      return 2;
    }
    exit := Finish(m, session, from, original, log);
    SinceOn(before, taken, m.At());
    TriedAll(loaded.actions, times, rest, before, ready, taken, m.At());
    if exit == 2 {
      OffSpoils(loaded.actions, session.actions, before, ready, taken, m.At());
    }
  }

  lemma UnsaveableBy(session: Session, p: Moment, q: Moment)
    requires Heard(p, q, Unsaved(session))
    ensures Unsaveable(p, q)
  {
  }

  lemma TriedAll(
      records: seq<ExecutedAction>, times: seq<Moment>, rest: nat, p: Moment, q: Moment, r: Moment, s: Moment)
    requires GoneThrough(records, times, rest, q, r) && Since(p, q) && Since(q, r) && Since(r, s)
    requires rest > 0 ==> Unsaveable(q, r)
    ensures AllTried(records, p, s) || Unsaveable(p, s)
  {
    hide HandledIn, Since, Heard;
    GoneThroughWider(records, times, rest, p, q, r, s);
    Wider(p, q, r, s);
  }

  /** A restarted service found off afterwards spoils the restore. */
  lemma OffSpoils(
      records: seq<ExecutedAction>, later: seq<ExecutedAction>, p: Moment, q: Moment, r: Moment, s: Moment)
    requires Since(p, q) && Since(q, r) && Since(r, s) && AllCameBack(records, later, 0, q, r)
    requires Troubled(r, s) || exists x | x in later :: FoundOff(x, r, s)
    ensures Spoiled(records, p, s)
  {
    hide Since, CameBack, FoundOff, Unrestorable, Troubled;
    SinceOn(p, q, r);
    SinceItself(r);
    SinceItself(s);
    if Troubled(r, s) {
      Wider(p, r, s, s);
    } else {
      var i :| 0 <= i < |later| && FoundOff(later[i], r, s);
      CameBackWider(records[i], later[i], p, q, r, r);
      assert Spoils(records[i], p, s);
      assert records[i] in records;
    }
  }

  /** After a complete rollback: verify, write the report, and let the session go. */
  method Finish(
      m: Machine, session: Session, ghost from: nat, ghost original: seq<ExecutedAction>, ghost log: seq<Effect>)
    returns (exit: int)
    requires m.Valid() && InRestore(m.trace, from, original, log, session)
    requires m.Now().file == Some(session) && RollbackComplete(session.actions)
    modifies m
    ensures m.Valid() && old(m.trace) <= m.trace
    ensures Fine(m.trace) && OnlyUndone(log, m.Now().log) && FilesEvolve(m.trace, from, original)
    ensures exit == 0 || exit == 2
    ensures exit == 0 ==> m.Now().file.None? && Restored(m.Now()) && forall r | r in original :: !AwaitsUser(r)
    ensures exit == 2 ==> m.Now().file.Some?
    ensures Since(old(m.At()), m.At())
    ensures exit == 2 ==>
              Troubled(old(m.At()), m.At()) || exists r | r in session.actions :: FoundOff(r, old(m.At()), m.At())
  {
    hide Extends, Touches, Sane, Fine, FilesEvolve, OnlyUndone, Restored, Quiet, InRestore, RollbackComplete, AllEvolve,
         Since, FoundOff;
    ghost var before, undone := m.At(), m.trace;
    var verification := m.Sample();
    ghost var verified := m.At();
    QuietMeans(undone, m.trace);
    InRestoreWhileQuiet(undone, m.trace, from, original, log, session);
    SinceItself(before);
    if verification.None? {
      GiveUp(m, session, from, original, log);
      SinceOn(before, verified, m.At());
      Wider(before, before, verified, m.At());
      return 2;
    }
    AllNamed(m.trace, from, original, log, session);
    var ok := VerifyServices(m, session.actions);
    ghost var ready, checked := m.trace, m.At();
    SinceOn(before, verified, checked);
    QuietMeans(verified.trace, ready);
    InRestoreWhileQuiet(verified.trace, ready, from, original, log, session);
    if !ok {
      GiveUp(m, session, from, original, log);
      SinceOn(before, checked, m.At());
      OffRemains(session.actions, before, verified, checked, m.At());
      return 2;
    }
    InRestoreMeans(ready, from, original, log, session);
    NobodyAwaits(original, session.actions);
    var completed := SessionManager.Complete(m, session);
    CompleteEvolves(ready, m.trace, from, original, log, session);
    SinceOn(before, checked, m.At());
    if !completed { Wider(before, checked, m.At(), m.At()) by { SinceItself(m.At()); } }
    return if completed then 0 else 2;
  }

  lemma AllNamed(t: Trace, from: nat, original: seq<ExecutedAction>, log: seq<Effect>, session: Session)
    requires InRestore(t, from, original, log, session)
    ensures forall r | r in session.actions && r.action.kind.StopServiceTemporary? :: r.action.serviceName != ""
  {
    hide Fine, FilesEvolve, AllEvolve, FileAdvances;
    forall r | r in session.actions && r.action.kind.StopServiceTemporary? ensures r.action.serviceName != "" {
      var i :| 0 <= i < |session.actions| && session.actions[i] == r;
      RecordIsSound(Last(t), session.actions, i);
    }
  }

  lemma OffRemains(records: seq<ExecutedAction>, p: Moment, q: Moment, r: Moment, s: Moment)
    requires Since(p, q) && Since(q, r) && Since(r, s)
    requires Troubled(q, r) || exists x | x in records :: FoundOff(x, q, r)
    ensures Troubled(p, s) || exists x | x in records :: FoundOff(x, p, s)
  {
    hide Since, FoundOff, Troubled;
    if Troubled(q, r) {
      Wider(p, q, r, s);
    } else {
      var x :| x in records && FoundOff(x, q, r);
      FoundOffWider(x, p, q, r, s);
    }
  }
}
