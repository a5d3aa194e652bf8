/** Any number of runs of the three commands, each of which may be killed at any moment. */
module Lifetime {
  import opened Types
  import opened JsonText
  import opened SessionModel
  import opened Worlds
  import opened Recoverable
  import opened Machines
  import opened SessionText
  import Enacting
  import Entering
  import Restoring
  import Acknowledging

  datatype Command =
    | Enter(config: Config, intervalMs: u32, options: Entering.CliOptions)
    | Restore(recoveryCommand: bool)
    | Acknowledge

  predicate WellConfigured(c: Command) {
    c.Enter? ==> Enacting.LowerCaseNames(c.config) && c.intervalMs > 0
  }

  /** Before the first session there is nothing to undo. */
  lemma FirstMoment(w: World)
    requires Sane(w) && w.file.None? && w.log == []
    requires forall pid | pid in w.procs :: w.procs[pid].priority == w.procs[pid].base
    ensures Fine([w])
  {
    forall pid | pid in w.procs ensures PriorityCovered(w, [], pid) {
    }
  }

  method RunCommand(m: Machine, command: Command, render: real -> Double)
    requires m.Valid() && Fine(m.trace) && WellConfigured(command)
    modifies m
    ensures m.Valid() && Fine(m.trace) && old(m.trace) <= m.trace
  {
    match command {
      case Enter(config, intervalMs, options) =>
        var exit, plan, planning, at, window := Entering.EnterCodingMode(m, config, intervalMs, options, render);
      case Restore(recoveryCommand) =>
        var exit := Restoring.RestoreSession(m, recoveryCommand);
      case Acknowledge =>
        var exit := Acknowledging.AcknowledgeRecovery(m);
    }
  }

  lemma ReleaseKeepsFine(a: Trace)
    requires Fine(a) && Last(a).file.None?
    ensures Fine(a + [Last(a).(watch := Watch({}, {}))])
  {
    var w := Last(a);
    var v := w.(watch := Watch({}, {}));
    FineMeansGood(a);
    forall pid | pid in v.procs ensures PriorityCovered(v, [], pid) {
      assert PriorityCovered(w, [], pid);
    }
    hide Authorized;
    AuthorizedWhileSilent(w, v);
    FineStep(a, v);
  }

  /** A helper whose client has given up may still stop the service it was asked to stop, once. */
  predicate MayStillStop(w: World, name: string) {
    && StopAccepted(name) !in w.log
    && exists r | r in RecordsOf(w) :: Awaits(r, StopAccepted(name))
  }

  lemma LateStopKeepsFine(a: Trace, b: Trace, name: string)
    requires Fine(a) && MayStillStop(Last(a), name) && Extends(a, b, Stops(name))
    requires Last(b).log == Last(a).log + [StopAccepted(name)]
    ensures Fine(b)
  {
    hide Extends, UsersWord, StepOk;
    var w, v := Last(a), Last(b);
    var r :| r in RecordsOf(w) && Awaits(r, StopAccepted(name));
    assert Restarts(r, name) by {
      FineMeansBacked(a);
      var i :| 0 <= i < |w.file.value.actions| && w.file.value.actions[i] == r;
      assert ActionStorable(w.file.value.actions[i]);
    }
    assert Authorized(w, v);
    assert NoRepeat(v.log) by { FineMeansGood(a); }
    hide Extends, NoRepeat, Authorized, Good, StepOk;
    FineOn(a, b, Stops(name));
  }

  /** Nobody runs the program; the rest of the system goes on. */
  method Idle(m: Machine)
    requires m.Valid() && Fine(m.trace)
    modifies m
    ensures m.Valid() && Fine(m.trace) && old(m.trace) <= m.trace
  {
    hide Fine, Extends, Touches;
    var turns: int := *;
    for turn := 0 to if turns < 0 then 0 else turns
      invariant m.Valid() && Fine(m.trace) && old(m.trace) <= m.trace
    {
      ghost var quiet := m.trace;
      m.Interfere();
      QuietMeans(quiet, m.trace);
      FineWhileQuiet(quiet, m.trace);
      var name: string := *;
      if MayStillStop(m.Now(), name) {
        ghost var before := m.trace;
        m.LateStop(name);
        ExtendsMeans(before, m.trace, Stops(name));
        LateStopKeepsFine(before, m.trace, name);
      }
    }
  }

  /**
   * The whole life of the program on a machine: commands in any order, with crashes between any two steps, pids reused,
   * services restless, and stops that take effect after their client has given them up. Every moment is recoverable,
   * whatever is done was planned on disk before, records only move forward, and a session file only ever goes away
   * rightfully.
   */
  method Life(m: Machine, commands: seq<Command>, render: real -> Double)
    requires m.Valid() && Fine(m.trace) && forall c | c in commands :: WellConfigured(c)
    modifies m
    ensures m.Valid() && Fine(m.trace) && old(m.trace) <= m.trace
  {
    hide Fine, WellConfigured, Extends, Touches;
    for i := 0 to |commands|
      invariant m.Valid() && Fine(m.trace) && old(m.trace) <= m.trace
    {
      var start := |m.trace|;
      RunCommand(m, commands[i], render);
      var moment: nat, crash: bool := *, *;
      if crash && start <= moment <= |m.trace| {
        FineCut(m.trace, moment);
        FineMeansGood(m.trace[..moment]);
        m.Crash(moment);
      }
      if m.Now().file.None? {
        ReleaseKeepsFine(m.trace);
        m.Release();
      }
      Idle(m);
    }
  }

  // ----- What a fine run means -----

  /** A live process that is not at its own priority has a record on disk that will put it back. */
  lemma ChangedProcessHasRecord(t: Trace, i: nat, pid: u32)
    requires Fine(t) && i < |t| && pid in t[i].procs && t[i].procs[pid].priority != t[i].procs[pid].base
    ensures t[i].file.Some?
    ensures exists r | r in t[i].file.value.actions ::
              Undoes(r, Ident(pid, t[i].procs[pid].start), t[i].procs[pid].base)
  {
    var w := t[i];
    assert Good(w);
    assert PriorityCovered(w, if w.file.None? then [] else w.file.value.actions, pid);
  }

  /** A process that reuses the pid of a target, and has no record of its own, is never changed. */
  lemma ReusedPidIsUntouched(t: Trace, i: nat, pid: u32)
    requires Fine(t) && i < |t| && pid in t[i].procs
    requires t[i].file.Some? ==>
               forall r | r in t[i].file.value.actions :: Target(r.action) != Ident(pid, t[i].procs[pid].start)
    ensures t[i].procs[pid].priority == t[i].procs[pid].base
  {
    if t[i].procs[pid].priority != t[i].procs[pid].base {
      ChangedProcessHasRecord(t, i, pid);
    }
  }

  /** A service that the session stopped and that does not run has a record that will start it. */
  lemma StoppedServiceHasRecord(t: Trace, i: nat, name: string)
    requires Fine(t) && i < |t| && name in t[i].watch.services && StopAccepted(name) in t[i].log
    requires !IsRunning(t[i], name)
    ensures t[i].file.Some? && exists r | r in t[i].file.value.actions :: Restarts(r, name)
  {
    var w := t[i];
    assert Good(w);
    assert ServiceCovered(w, if w.file.None? then [] else w.file.value.actions, name);
  }

  /** The text of every session file of every run is read back as the session it was printed from. */
  lemma NeverLockedOut(t: Trace, i: nat)
    requires Fine(t) && i < |t| && t[i].file.Some?
    ensures Deserialized(Serialized(t[i].file.value)) == Some(t[i].file.value)
  {
    assert Storable(t[i].file.value) by {
      assert Good(t[i]);
      assert Backed(t[i], t[i].file.value.actions);
    }
    hide Serialized, Deserialized, Good, Storable;
    SessionRoundTrip(t[i].file.value);
  }

  /**
   * Within a session no priority is changed twice, no stop accepted twice, no window told to close twice, and no
   * process is sent a second close request: the messages of a request are numbered from zero.
   */
  lemma NothingTwice(t: Trace, i: nat, j: nat, k: nat)
    requires Fine(t) && i < |t| && j < |t[i].log| && k < |t[i].log| && j != k
    requires Deed(t[i].log[j]) && Deed(t[i].log[k])
    ensures !SameDeed(t[i].log[j], t[i].log[k])
  {
    var log := t[i].log;
    assert NoRepeat(log) by { assert Good(t[i]); }
    var first, second := if j < k then j else k, if j < k then k else j;
    assert !SameDeed(log[first], log[second]);
  }

  // ----- What the records tell -----

  /**
   * While a session lasts, whatever was done has a record, and its state admits it: it is neither Failed nor Rejected,
   * a close is Planned, Uncertain or Completed, and a message that was not delivered to a living process is not taken
   * for one unless the user said so.
   */
  lemma DeedIsOnRecord(t: Trace, i: nat, e: Effect)
    requires Fine(t) && i < |t| && t[i].file.Some? && e in t[i].log && Deed(e)
    ensures exists r | r in t[i].file.value.actions ::
              && DoneFor(e, r.action) && r.state != Failed && r.state != Rejected
              && (e.CloseSent? ==>
                    && (r.state == Planned || r.state == Uncertain || r.state == ActionState.Completed)
                    && (r.state == ActionState.Completed && Live(t[i], e.who) && !e.delivered ==>
                          r.resultMessage == UsersWord(r)))
  {
    hide UsersWord, Covered, NoRepeat, DistinctRecords, TruePayload, StepOk;
    var w := t[i];
    var records := w.file.value.actions;
    assert Good(w);
    var r :| r in records && DoneFor(e, r.action);
    var k :| 0 <= k < |records| && records[k] == r;
    assert ActionStorable(records[k]) && Told(w, r);
    assert Done(w.log, r.action);
  }

  /** Whatever is done was waited for by a record on disk: it was planned there before. */
  lemma DoneOnlyWhenPlanned(t: Trace, i: nat, j: nat, e: Effect)
    requires Fine(t) && i < |t| && j < |t| && j == i + 1 && e in t[j].log && e !in t[i].log && Deed(e)
    ensures t[i].file.Some? && exists r | r in t[i].file.value.actions :: Awaits(r, e)
  {
    hide Good, Authorized, Rightful, FileAdvances;
    assert StepOk(t[i], t[j]);
    if StartsAnew(t[i], t[j]) {
    } else {
      NewDeedIsAwaited(t[i], t[j], e);
    }
  }

  lemma NewDeedIsAwaited(w: World, v: World, e: Effect)
    requires Authorized(w, v) && e in v.log && e !in w.log && Deed(e)
    ensures w.file.Some? && exists r | r in w.file.value.actions :: Awaits(r, e)
  {
    assert v.log == w.log + v.log[|w.log|..];
    var r :| r in RecordsOf(w) && Awaits(r, e);
  }

  /** What may have become of a record while the session lasted. */
  predicate Later(r: ExecutedAction, q: ExecutedAction) {
    && q.action == r.action && (q.state == Planned ==> r.state == Planned)
    && (Final(r.state) || r.state == ActionState.Completed ==> q == r)
    && (UncertainClose(r) ==>
          UncertainClose(q) || (q.state == ActionState.Completed && q.resultMessage == UsersWord(q)))
  }

  ghost predicate SameSession(t: Trace, i: nat, j: nat) {
    j < |t| && forall k | i <= k <= j :: t[k].file.Some?
  }

  /**
   * Over any stretch of a session, with any number of crashes, restores and acknowledgements in it: records stay in
   * place, none is ever planned again, so that nothing is done again; what is final stays; and a close that may have
   * been delivered stays uncertain until the user has acknowledged it.
   */
  lemma {:induction false} RecordsMoveForward(t: Trace, i: nat, j: nat, k: nat)
    requires Fine(t) && i <= j && SameSession(t, i, j) && k < |t[i].file.value.actions|
    ensures k < |t[j].file.value.actions| && t[j].file.value.id == t[i].file.value.id
    ensures t[j].file.value.baseline == t[i].file.value.baseline
    ensures Later(t[i].file.value.actions[k], t[j].file.value.actions[k])
    decreases j - i
  {
    hide Good, Authorized, Rightful, UsersWord, StepOk, Later;
    if i < j {
      RecordsMoveForward(t, i, j - 1, k);
      assert StepOk(t[j - 1], t[j]);
      StepAdvances(t[j - 1], t[j], k);
      LaterOn(t[i].file.value.actions[k], t[j - 1].file.value.actions[k], t[j].file.value.actions[k]);
    } else {
      LaterItself(t[i].file.value.actions[k]);
    }
  }

  lemma StepAdvances(w: World, v: World, k: nat)
    requires StepOk(w, v) && w.file.Some? && v.file.Some? && k < |w.file.value.actions|
    ensures k < |v.file.value.actions| && v.file.value.id == w.file.value.id
    ensures v.file.value.baseline == w.file.value.baseline
    ensures Advances(w.file.value.actions[k], v.file.value.actions[k])
  {
    hide Authorized, Rightful, Advances;
  }

  lemma LaterItself(r: ExecutedAction)
    ensures Later(r, r)
  {
    hide UsersWord;
  }

  lemma LaterOn(r: ExecutedAction, q: ExecutedAction, p: ExecutedAction)
    requires Later(r, q) && Advances(q, p)
    ensures Later(r, p)
  {
    OneWord(q, p);
    hide UsersWord;
  }
}
