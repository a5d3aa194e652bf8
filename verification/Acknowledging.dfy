/** Ending a session whose closes nobody can tell the outcome of: AcknowledgeRecovery. */
module Acknowledging {
  import opened Types
  import opened SessionModel
  import opened Completion
  import opened Worlds
  import opened Recoverable
  import opened Machines
  import opened Executor
  import opened SessionManager

  /** A record that must be restored, or at least assessed by a restore, before the user can be asked about it. */
  predicate Unrestored(r: ExecutedAction) {
    if IsReversible(r.action.kind) then !Final(r.state) else r.state == Planned
  }

  /** The checks: nothing left unrestored, and at least one close to ask about. */
  method MayAcknowledge(records: seq<ExecutedAction>) returns (may: bool)
    ensures may <==> (forall r | r in records :: !Unrestored(r)) && exists r | r in records :: UncertainClose(r)
  {
    var uncertain := false;
    for i := 0 to |records|
      invariant forall j | 0 <= j < i :: !Unrestored(records[j])
      invariant uncertain <==> exists j | 0 <= j < i :: UncertainClose(records[j])
    {
      var r := records[i];
      if IsReversible(r.action.kind) && !(r.state == RolledBack || r.state == Rejected || r.state == Failed) {
        assert Unrestored(r);
        return false;
      }
      if !IsReversible(r.action.kind) && r.state == Planned {
        assert Unrestored(r);
        return false;
      }
      if r.action.kind.GracefulCloseProcess? && r.state == Uncertain {
        uncertain := true;
      }
    }
    return uncertain;
  }

  predicate IsAcknowledged(records: seq<ExecutedAction>, later: seq<ExecutedAction>) {
    |later| == |records| && forall i | 0 <= i < |records| :: later[i] == Acknowledged(records[i])
  }

  /** From the moment `from` on, the session file holds `records`, or all of them acknowledged, or is gone. */
  ghost predicate FilesAcknowledge(t: Trace, from: nat, records: seq<ExecutedAction>) {
    forall i | from <= i < |t| ::
      || t[i].file.None? || t[i].file.value.actions == records
      || IsAcknowledged(records, t[i].file.value.actions)
  }

  lemma FilesAcknowledgeOn(a: Trace, b: Trace, from: nat, records: seq<ExecutedAction>, actions: seq<ExecutedAction>)
    requires FilesAcknowledge(a, from, records) && a <= b
    requires actions == records || IsAcknowledged(records, actions)
    requires forall i | |a| <= i < |b| ::
               b[i].file.None? || b[i].file.value.actions == actions || b[i].file == Last(a).file
    requires from < |a|
    ensures FilesAcknowledge(b, from, records)
  {
    hide IsAcknowledged;
    forall i | from <= i < |b|
      ensures b[i].file.None? || b[i].file.value.actions == records || IsAcknowledged(records, b[i].file.value.actions)
    {
      if i < |a| {
        assert b[i] == a[i];
      }
    }
  }

  lemma AcknowledgingAdvances(s: Session, later: seq<ExecutedAction>, state: SessionState)
    requires IsAcknowledged(s.actions, later)
    ensures FileAdvances(Some(s), s.(actions := later, state := state))
  {
    hide UsersWord;
  }

  /** Each uncertain close becomes Completed by the user's word; the records keep backing the machine. */
  method AcknowledgeAll(records: seq<ExecutedAction>, ghost w: World) returns (settled: seq<ExecutedAction>)
    requires Backed(w, records) && forall r | r in records :: !Unrestored(r)
    ensures Backed(w, settled) && RollbackComplete(settled)
    ensures IsAcknowledged(records, settled)
  {
    hide UsersWord;
    settled := records;
    for i := 0 to |records|
      invariant |settled| == |records| && Backed(w, settled)
      invariant forall j | 0 <= j < i :: settled[j] == Acknowledged(records[j])
      invariant forall j | i <= j < |records| :: settled[j] == records[j]
    {
      hide Backed;
      if settled[i].action.kind.GracefulCloseProcess? && settled[i].state == Uncertain {
        AcknowledgedStaysBacked(w, settled, i);
        settled := settled[i := settled[i].(state := ActionState.Completed, resultMessage := UsersWord(settled[i]))];
      }
    }
    forall i | 0 <= i < |settled| ensures Settled(settled[i]) {
      assert records[i] in records && ActionStorable(records[i]);
    }
  }

  /** A close completed by the user's word tells nothing about what was done. */
  lemma AcknowledgedIsTold(w: World, r: ExecutedAction)
    requires UncertainClose(r)
    ensures Told(w, Acknowledged(r))
  {
  }

  lemma AcknowledgedStaysBacked(w: World, records: seq<ExecutedAction>, i: nat)
    requires Backed(w, records) && i < |records| && UncertainClose(records[i])
    ensures Backed(w, records[i := Acknowledged(records[i])])
  {
    hide UsersWord;
    assert records[i] in records && ActionStorable(records[i]);
    AcknowledgedIsTold(w, records[i]);
    RecordChanged(w, records, i, Acknowledged(records[i]));
  }

  /**
   * AcknowledgeRecovery. It has no effect on any process or service, refuses while anything is unrestored, and when it
   * exits with 0 the session is over and the machine is as it was. All it ever does to the records is to complete the
   * uncertain closes by the user's word.
   */
  method AcknowledgeRecovery(m: Machine) returns (exit: int)
    requires m.Valid() && Fine(m.trace)
    modifies m
    ensures m.Valid() && Fine(m.trace) && old(m.trace) <= m.trace && m.Now().log == old(m.Now().log)
    ensures exit == 0 || exit == 2
    ensures if exit == 0 then m.Now().file.None? && Restored(m.Now())
            else m.Now().file.Some? == old(m.Now()).file.Some?
    ensures old(m.Now()).file.Some? ==>
              FilesAcknowledge(m.trace, |old(m.trace)| - 1, old(m.Now()).file.value.actions)
    ensures old(m.Now()).file.Some? && (exists r | r in old(m.Now()).file.value.actions :: Unrestored(r)) ==>
              exit == 2 && Quiet(old(m.trace), m.trace)
    ensures old(m.Now()).file.Some? && exit == 0 ==>
              exists r | r in old(m.Now()).file.value.actions :: UncertainClose(r)
    ensures exit == 2 && old(m.Now()).file.Some? && (forall r | r in old(m.Now()).file.value.actions :: !Unrestored(r))
            && (exists r | r in old(m.Now()).file.value.actions :: UncertainClose(r)) ==>
              m.Failures() > old(m.Failures())
  {
    hide Extends, Touches, Sane, Fine, Backed, PointStorable, Restored, Unrestored, UncertainClose, FilesAcknowledge,
         Quiet;
    ghost var before := m.trace;
    var loaded := m.LoadActive();
    QuietMeans(before, m.trace);
    FineWhileQuiet(before, m.trace);
    QuietAcknowledges(before, m.trace);
    if loaded.None? {
      ghost var asked := m.trace;
      var present := m.HasActiveSession();
      QuietOn(before, asked, m.trace);
      QuietMeans(before, m.trace);
      FineWhileQuiet(asked, m.trace);
      QuietAcknowledges(before, m.trace);
      if !present { NoFileMeansRestored(m.Now()) by { FineMeansGood(m.trace); } }
      return if present then 2 else 0;
    }
    var session := loaded.value;
    var may := MayAcknowledge(session.actions);
    if !may {
      return 2;
    }
    exit := Settle(m, session, |before| - 1);
  }

  lemma QuietAcknowledges(a: Trace, b: Trace)
    requires Quiet(a, b)
    ensures Last(a).file.Some? ==> FilesAcknowledge(b, |a| - 1, Last(a).file.value.actions)
  {
    QuietMeans(a, b);
    if Last(a).file.Some? {
      assert forall i | |a| - 1 <= i < |b| :: Touches(Last(a), b[i], NOTHING);
    }
  }

  /** The rest of AcknowledgeRecovery, once the user may be taken at their word. */
  method Settle(m: Machine, loaded: Session, ghost from: nat) returns (exit: int)
    requires m.Valid() && Fine(m.trace) && m.Now().file == Some(loaded) && from < |m.trace|
    requires FilesAcknowledge(m.trace, from, loaded.actions)
    requires forall r | r in loaded.actions :: !Unrestored(r)
    modifies m
    ensures m.Valid() && Fine(m.trace) && old(m.trace) <= m.trace && m.Now().log == old(m.Now().log)
    ensures FilesAcknowledge(m.trace, from, loaded.actions)
    ensures exit == 0 || exit == 2
    ensures if exit == 0 then m.Now().file.None? && Restored(m.Now())
            else m.Now().file.Some? == old(m.Now()).file.Some?
    ensures exit == 2 ==> m.Failures() > old(m.Failures())
  {
    ghost var before := m.trace;
    FineMeansBacked(m.trace);
    var settled := AcknowledgeAll(loaded.actions, m.Now());
    AcknowledgingAdvances(loaded, settled, Recovering);
    hide Extends, Touches, Sane, Fine, Backed, PointStorable, Restored, RollbackComplete, FileAdvances, IsAcknowledged,
         FilesAcknowledge, Quiet, Passed;
    var session := loaded.(actions := settled, state := Recovering);
    var saved := Persist(m, session);
    FilesAcknowledgeOn(before, m.trace, from, loaded.actions, settled);
    if !saved {
      return 2;
    }
    exit := Verify(m, session, loaded.actions, from);
  }

  /** With the acknowledged records on disk: verify, and complete the session. */
  method Verify(m: Machine, session: Session, ghost records: seq<ExecutedAction>, ghost from: nat) returns (exit: int)
    requires m.Valid() && Fine(m.trace) && m.Now().file == Some(session) && from < |m.trace|
    requires RollbackComplete(session.actions)
    requires FilesAcknowledge(m.trace, from, records) && IsAcknowledged(records, session.actions)
    modifies m
    ensures m.Valid() && Fine(m.trace) && old(m.trace) <= m.trace && m.Now().log == old(m.Now().log)
    ensures FilesAcknowledge(m.trace, from, records)
    ensures exit == 0 || exit == 2
    ensures if exit == 0 then m.Now().file.None? && Restored(m.Now()) else m.Now().file.Some?
    ensures exit == 2 ==> m.Failures() > old(m.Failures())
  {
    hide Extends, Touches, Sane, Fine, Backed, PointStorable, Restored, RollbackComplete, FileAdvances, IsAcknowledged,
         FilesAcknowledge, Quiet, Passed;
    ghost var before := m.trace;
    var verification := m.Sample();
    QuietMeans(before, m.trace);
    QuietFiles(before, m.trace);
    FineWhileQuiet(before, m.trace);
    FilesAcknowledgeOn(before, m.trace, from, records, session.actions);
    ghost var verified := m.trace;
    if verification.None? {
      FineMeansBacked(m.trace);
      FileAdvancesItself(session, SafeMode);
      var saved := Persist(m, session.(state := SafeMode));
      FilesAcknowledgeOn(verified, m.trace, from, records, session.actions);
      return 2;
    }
    var completed := SessionManager.Complete(m, session);
    FilesAcknowledgeOn(verified, m.trace, from, records, session.actions);
    return if completed then 0 else 2;
  }
}
