/** SessionManager: the session file and the reports, and what writing them keeps true. */
module SessionManager {
  import opened Types
  import opened SessionModel
  import opened Completion
  import opened Worlds
  import opened Moments
  import opened Recoverable
  import opened Machines

  // ----- Files -----

  /** SessionManager::Save, for a session that goes on from the one on disk and whose records back the machine. */
  method Persist(m: Machine, session: Session) returns (ok: bool)
    requires m.Valid() && Fine(m.trace) && PointStorable(session.baseline) && Backed(m.Now(), session.actions)
    requires FileAdvances(m.Now().file, session)
    modifies m
    ensures m.Valid() && Fine(m.trace) && old(m.trace) <= m.trace && Since(old(m.At()), m.At())
    ensures m.Now().file == if ok then Some(session) else old(m.Now().file)
    ensures Passed(old(m.Now()), m.Now()) && Backed(m.Now(), session.actions) && m.Now().log == old(m.Now().log)
    ensures m.Now().watch == old(m.Now().watch)
    ensures m.Failures() == old(m.Failures()) + if ok then 0 else 1
    ensures !ok ==> Heard(old(m.At()), m.At(), Unsaved(session))
    ensures forall i | |old(m.trace)| <= i < |m.trace| ::
              && (m.trace[i].file == old(m.Now().file) || m.trace[i].file == Some(session))
              && m.trace[i].log == old(m.Now().log)
  {
    hide Extends, Touches, Fine, Backed, Quiet, PointStorable, Passed, Sane, FileAdvances, Heard;
    ghost var before := m.trace;
    ok := m.Save(session);
    if ok {
      ghost var mid :| SavedVia(before, mid, m.trace, session);
      SaveKeepsFine(before, mid, m.trace, session);
    } else {
      QuietMeans(before, m.trace);
      QuietFiles(before, m.trace);
      FineWhileQuiet(before, m.trace);
      PassedQuiet(before, m.trace);
      BackedWhenPassed(Last(before), m.Now(), session.actions);
    }
  }

  lemma SaveKeepsFine(a: Trace, mid: Trace, b: Trace, session: Session)
    requires Fine(a) && SavedVia(a, mid, b, session)
    requires PointStorable(session.baseline) && Backed(Last(a), session.actions)
    requires FileAdvances(Last(a).file, session)
    ensures Fine(b) && a <= b && Passed(Last(a), Last(b)) && Backed(Last(b), session.actions)
    ensures Last(b).file == Some(session) && Last(b).log == Last(a).log && Last(b).watch == Last(a).watch
    ensures forall i | |a| <= i < |b| ::
              (b[i].file == Last(a).file || b[i].file == Some(session)) && b[i].log == Last(a).log
  {
    QuietFiles(a, mid);
    hide Extends, Backed, Quiet, PointStorable, Touches, NoRepeat, StepOk, FileAdvances, Passed;
    QuietMeans(a, mid);
    FineWhileQuiet(a, mid);
    var w, v := Last(mid), Last(b);
    PassedSave(Last(a), w, v);
    BackedWhenPassed(Last(a), v, session.actions);
    assert Good(w);
    SavingIsOk(w, v);
    FineStep(mid, v);
  }

  lemma SavingIsOk(w: World, v: World)
    requires v == w.(file := v.file) && v.file.Some? && FileAdvances(w.file, v.file.value)
    ensures StepOk(w, v)
  {
    hide FileAdvances;
    AuthorizedWhileSilent(w, v);
  }

  lemma ReportingIsOk(w: World, v: World)
    requires v == w.(reports := v.reports)
    ensures StepOk(w, v)
  {
    hide Authorized;
    AuthorizedWhileSilent(w, v);
    if v.file.Some? { FileAdvancesItself(v.file.value, v.file.value.state); }
  }

  lemma QuietFiles(a: Trace, b: Trace)
    requires Quiet(a, b)
    ensures forall i | |a| <= i < |b| :: b[i].file == Last(a).file && b[i].log == Last(a).log
  {
    QuietMeans(a, b);
    assert LogsGrow(b, |a| - 1);
    forall i | |a| <= i < |b| ensures b[i].file == Last(a).file && b[i].log == Last(a).log {
      assert Touches(Last(a), b[i], NOTHING);
    }
  }

  lemma PassedSave(w: World, mid: World, v: World)
    requires Touches(w, mid, NOTHING) && v == mid.(file := v.file, reports := v.reports)
    ensures Passed(w, v)
  {
    var u := w.(file := v.file, reports := v.reports);
    forall pid | pid in v.procs ensures ProcessKept(u, pid, v.procs[pid], NOTHING) {
      assert ProcessKept(w, pid, mid.procs[pid], NOTHING);
    }
  }

  /** SessionManager::Complete: the report first, then the session file goes. */
  method Complete(m: Machine, session: Session) returns (ok: bool)
    requires m.Valid() && Fine(m.trace) && m.Now().file == Some(session) && RollbackComplete(session.actions)
    modifies m
    ensures m.Valid() && Fine(m.trace) && old(m.trace) <= m.trace && Since(old(m.At()), m.At())
    ensures if ok then m.Now().file.None? && Restored(m.Now()) else m.Now().file == Some(session)
    ensures m.Now().log == old(m.Now().log)
    ensures m.Failures() == old(m.Failures()) + if ok then 0 else 1
    ensures forall i | |old(m.trace)| <= i < |m.trace| :: m.trace[i].file == Some(session) || m.trace[i].file.None?
  {
    hide Extends, Touches, Fine, Quiet, Sane, RollbackComplete, Restored, TallyOf;
    ghost var before := m.trace;
    var tally, complete := Assess(session.actions);
    TallyIsTotal(session.actions);
    ok := m.WriteReport(session.id, Report(tally, complete));
    if !ok {
      QuietMeans(before, m.trace);
      QuietFiles(before, m.trace);
      FineWhileQuiet(before, m.trace);
      return;
    }
    ghost var reported := m.trace;
    ghost var mid :| ReportedVia(before, mid, reported, session.id, Report(tally, complete));
    ReportKeepsFine(before, mid, reported, session.id, Report(tally, complete));
    ok := m.RemoveActive();
    if !ok {
      QuietMeans(reported, m.trace);
      QuietFiles(reported, m.trace);
      FineWhileQuiet(reported, m.trace);
      return;
    }
    ghost var ready :| RemovedVia(reported, ready, m.trace);
    RemoveKeepsFine(reported, ready, m.trace);
  }

  lemma ReportKeepsFine(a: Trace, mid: Trace, b: Trace, id: string, report: Report)
    requires Fine(a) && ReportedVia(a, mid, b, id, report)
    ensures Fine(b) && a <= b && Last(b).file == Last(a).file && Last(b).log == Last(a).log
    ensures id in Last(b).reports && Last(b).reports[id] == report
    ensures forall i | |a| <= i < |b| :: b[i].file == Last(a).file
  {
    QuietFiles(a, mid);
    hide Extends, Backed, Quiet, Covered, NoRepeat, StepOk, Touches;
    QuietMeans(a, mid);
    FineWhileQuiet(a, mid);
    var w, v := Last(mid), Last(b);
    assert Good(w);
    if w.file.Some? {
      BackedIgnoresFiles(w, w.file, v.reports, w.file.value.actions);
      assert w.(file := w.file, reports := v.reports) == v;
    } else {
      assert Covered(v, []) by { CoveredIgnoresFiles(w, v); }
    }
    ReportingIsOk(w, v);
    FineStep(mid, v);
  }

  lemma CoveredIgnoresFiles(w: World, v: World)
    requires Covered(w, []) && v == w.(file := v.file, reports := v.reports)
    ensures Covered(v, [])
  {
    forall pid | pid in v.procs ensures PriorityCovered(v, [], pid) {
      assert PriorityCovered(w, [], pid);
    }
    forall name | name in v.watch.services && StopAccepted(name) in v.log ensures ServiceCovered(v, [], name) {
      assert ServiceCovered(w, [], name);
    }
  }

  lemma RemoveKeepsFine(a: Trace, mid: Trace, b: Trace)
    requires Fine(a) && RemovedVia(a, mid, b) && Last(a).file.Some?
    requires var s := Last(a).file.value;
             && RollbackComplete(s.actions) && TallyOf(s.actions).Total() == |s.actions|
             && s.id in Last(a).reports && Last(a).reports[s.id] == Report(TallyOf(s.actions), true)
    ensures Fine(b) && a <= b && Last(b).file.None? && Restored(Last(b)) && Last(b).log == Last(a).log
    ensures forall i | |a| <= i < |b| :: b[i].file == Last(a).file || b[i].file.None?
  {
    QuietFiles(a, mid);
    hide Extends, Quiet, NoRepeat, RollbackComplete, TallyOf, Restored;
    QuietMeans(a, mid);
    FineWhileQuiet(a, mid);
    var w, v := Last(mid), Last(b);
    assert Good(w);
    hide Backed, Touches, Sane;
    assert Covered(v, []) by {
      assert Backed(w, w.file.value.actions);
      SettledWhenBacked(w, w.file.value.actions);
      CoveredIgnoresFiles(w, v);
    }
    hide Covered;
    assert Good(v) by { GoodWithoutFile(w, v); }
    FineStep(mid, v);
    NoFileMeansRestored(v);
  }

  lemma SettledWhenBacked(w: World, records: seq<ExecutedAction>)
    requires Backed(w, records) && RollbackComplete(records)
    ensures Covered(w, [])
  {
    SettledMeansRestored(w, records);
  }

  lemma GoodWithoutFile(w: World, v: World)
    requires Good(w) && v == w.(file := None) && Covered(v, [])
    ensures Good(v)
  {
  }
}
