/** How the records of a session may change while it is restored. */
module Evolution {
  import opened Types
  import opened SessionModel
  import opened Worlds
  import opened Recoverable
  import opened Executor

  /** A record is only ever moved towards its end: what is final stays, and an uncertain close stays uncertain. */
  predicate Evolves(r: ExecutedAction, q: ExecutedAction) {
    && q.action == r.action && q.originalPriority == r.originalPriority
    && q.originalServiceState == r.originalServiceState
    && (q == r || (!Final(r.state) && (q.state == Uncertain || (q.state == RolledBack && IsReversible(r.action.kind)))))
    && (!IsReversible(r.action.kind) && r.state == ActionState.Completed ==> q == r)
  }

  ghost predicate AllEvolve(records: seq<ExecutedAction>, later: seq<ExecutedAction>) {
    |later| == |records| && forall i | 0 <= i < |records| :: Evolves(records[i], later[i])
  }

  /** From the moment `from` on, the session file holds what `records` became, or is gone. */
  ghost predicate FilesEvolve(t: Trace, from: nat, records: seq<ExecutedAction>) {
    forall i | from <= i < |t| :: t[i].file.None? || AllEvolve(records, t[i].file.value.actions)
  }

  lemma EvolvingAdvances(r: ExecutedAction, q: ExecutedAction)
    requires Evolves(r, q) && Regular(r)
    ensures Advances(r, q)
  {
  }

  lemma EvolvesOn(r: ExecutedAction, q: ExecutedAction, p: ExecutedAction)
    requires Evolves(r, q) && Evolves(q, p)
    ensures Evolves(r, p)
  {
  }

  lemma AllEvolveStep(records: seq<ExecutedAction>, later: seq<ExecutedAction>, i: nat, r: ExecutedAction)
    requires AllEvolve(records, later) && i < |later| && Evolves(later[i], r)
    ensures AllEvolve(records, later[i := r])
  {
    EvolvesOn(records[i], later[i], r);
  }

  lemma FilesEvolveQuiet(a: Trace, b: Trace, scope: Scope, from: nat, records: seq<ExecutedAction>)
    requires FilesEvolve(a, from, records) && from < |a| && Extends(a, b, scope)
    ensures FilesEvolve(b, from, records)
  {
    hide AllEvolve;
    forall i | from <= i < |b| ensures b[i].file.None? || AllEvolve(records, b[i].file.value.actions) {
      if i < |a| {
        assert b[i] == a[i];
      } else {
        assert Touches(Last(a), b[i], scope);
      }
    }
  }

  lemma FilesEvolveSave(a: Trace, b: Trace, from: nat, records: seq<ExecutedAction>, session: Session)
    requires FilesEvolve(a, from, records) && from < |a| <= |b| && a <= b
    requires forall i | |a| <= i < |b| :: b[i].file == Last(a).file || b[i].file == Some(session)
    requires AllEvolve(records, session.actions)
    ensures FilesEvolve(b, from, records)
  {
    hide AllEvolve;
    forall i | from <= i < |b| ensures b[i].file.None? || AllEvolve(records, b[i].file.value.actions) {
      if i < |a| {
        assert b[i] == a[i];
      }
    }
  }
}
