/** Priority changes and graceful closes, on the one process that was meant. */
module ProcessActionApi {
  import opened Types
  import opened Worlds
  import opened Moments
  import opened Recoverable
  import opened Machines

  const ERROR_ACCESS_DISABLED_BY_POLICY: u32 := 1260
  const ERROR_TIMEOUT: u32 := 1460
  const ERROR_NOT_FOUND: u32 := 1168

  datatype IdentityStatus = Match | Mismatch | Error
  datatype PriorityChangeResult = PriorityChangeResult(success: bool, originalPriority: u32, errorCode: u32)
  datatype GracefulCloseResult = GracefulCloseResult(
    success: bool, processExited: bool, deliveryUncertain: bool, windowsSignaled: nat, errorCode: u32)

  method VerifyProcessIdentity(m: Machine, handle: Ident, expectedStart: u64) returns (status: IdentityStatus)
    requires m.Valid()
    modifies m
    ensures m.Valid() && Quiet(old(m.trace), m.trace) && Since(old(m.At()), m.At())
    ensures status.Match? ==> handle.start == expectedStart
    ensures status.Mismatch? ==> handle.start != expectedStart
    ensures status.Error? && expectedStart != 0 ==> Troubled(old(m.At()), m.At())
  {
    if expectedStart == 0 {
      QuietItself(m.trace);
      return Error;
    }
    var start := m.GetProcessTimes(handle);
    if start.None? {
      return Error;
    }
    return if start.value != expectedStart then Mismatch else Match;
  }

  /** A pid has one process at a time: while it has another one, a watched process is gone for good. */
  lemma GoneStaysGone(w: World, v: World, who: Ident, handle: Ident)
    requires Touches(w, v, NOTHING) && who in w.watch.processes && Live(w, handle) && handle.pid == who.pid
    ensures handle.start != who.start ==> !Live(v, who)
  {
    if Live(v, who) {
      WatchedStays(w, v, NOTHING, who);
    }
  }

  /** The first half of a priority change: open the process that was meant, and ask for its priority. */
  method AskPriority(m: Machine, pid: u32, expectedStart: u64)
    returns (handle: Option<Ident>, original: u32, errorCode: u32)
    requires m.Valid() && Ident(pid, expectedStart) in m.Now().watch.processes
    modifies m
    ensures m.Valid() && Quiet(old(m.trace), m.trace) && Since(old(m.At()), m.At())
    ensures handle.Some? ==>
              && handle.value == Ident(pid, expectedStart) && original != 0
              && (Live(m.Now(), handle.value) ==> m.Now().procs[pid].priority == original)
    ensures handle.None? && expectedStart != 0 ==>
              Troubled(old(m.At()), m.At()) || GoneIn(old(m.At()), m.At(), Ident(pid, expectedStart))
  {
    hide Extends, Touches, Sane;
    ghost var who, before := Ident(pid, expectedStart), m.trace;
    original := 0;
    handle, errorCode := m.OpenProcess(pid);
    ghost var found := m.trace;
    QuietMeans(before, found);
    if handle.None? {
      return;
    }
    var identity := VerifyProcessIdentity(m, handle.value, expectedStart);
    QuietMeans(found, m.trace);
    if identity != Match {
      GoneStaysGone(Last(found), m.Now(), who, handle.value);
      return None, 0, ERROR_INVALID_PARAMETER;
    }
    ghost var verified := m.trace;
    original := m.GetPriorityClass(handle.value);
    QuietMeans(verified, m.trace);
    if original == 0 {
      errorCode := m.GetLastError();
      return None, original, errorCode;
    }
  }

  /**
   * A failed change changed nothing, and happens only when a call fails or the process is gone; a successful one
   * reports the priority the process had when the call began.
   */
  method SetPriority(m: Machine, pid: u32, expectedStart: u64, targetPriority: u32)
    returns (result: PriorityChangeResult)
    requires m.Valid() && Ident(pid, expectedStart) in m.Now().watch.processes
    modifies m
    ensures m.Valid()
    ensures !result.success ==> Quiet(old(m.trace), m.trace)
    ensures Extends(old(m.trace), m.trace, Priorities(Ident(pid, expectedStart)))
    ensures result.success ==>
              m.Now().log == old(m.Now().log) + [PrioritySet(Ident(pid, expectedStart), targetPriority, false)]
    ensures result.success ==> result.originalPriority != 0
    ensures result.success && Live(m.Now(), Ident(pid, expectedStart)) ==>
              && Live(old(m.Now()), Ident(pid, expectedStart))
              && result.originalPriority == old(m.Now()).procs[pid].priority
              && m.Now().procs[pid].priority == targetPriority
    ensures Since(old(m.At()), m.At())
    ensures !result.success && expectedStart != 0 ==>
              Troubled(old(m.At()), m.At()) || GoneIn(old(m.At()), m.At(), Ident(pid, expectedStart))
  {
    ghost var who, before := Ident(pid, expectedStart), m.trace;
    ExtendsItself(before, Priorities(who));
    hide Extends, Touches, Sane, Quiet;
    var handle, original, code := AskPriority(m, pid, expectedStart);
    QuietMeans(before, m.trace);
    QuietExtends(before, m.trace, Priorities(who));
    result := PriorityChangeResult(false, original, code);
    if handle.None? {
      return;
    }
    ghost var asked := m.trace;
    var changed := m.SetPriorityClass(handle.value, targetPriority, false);
    ExtendsMeans(asked, m.trace, Priorities(who));
    QuietThenExtends(before, asked, m.trace, Priorities(who));
    if !changed {
      QuietOn(before, asked, m.trace);
      code := m.GetLastError();
      return result.(errorCode := code);
    }
    result := result.(success := true);
    if Live(m.Now(), who) {
      WatchedStays(Last(asked), m.Now(), Priorities(who), who);
      WatchedStays(Last(before), Last(asked), NOTHING, who);
    }
  }

  /**
   * Succeeds only when the process is gone or has the given priority; never changes any other process; fails only when
   * a call fails.
   */
  method RestorePriority(m: Machine, pid: u32, expectedStart: u64, originalPriority: u32)
    returns (ok: bool, errorCode: u32)
    requires m.Valid() && Ident(pid, expectedStart) in m.Now().watch.processes
    modifies m
    ensures m.Valid()
    ensures Extends(old(m.trace), m.trace, Priorities(Ident(pid, expectedStart)))
    ensures m.Now().log == old(m.Now().log) + [PrioritySet(Ident(pid, expectedStart), originalPriority, true)]
            || Quiet(old(m.trace), m.trace)
    ensures ok && Live(m.Now(), Ident(pid, expectedStart)) ==> m.Now().procs[pid].priority == originalPriority
    ensures Since(old(m.At()), m.At()) && (!ok && expectedStart != 0 ==> Troubled(old(m.At()), m.At()))
  {
    hide Extends, Touches, Sane, Quiet;
    ghost var who, before := Ident(pid, expectedStart), m.trace;
    var handle, code := m.OpenProcess(pid);
    ghost var found := m.trace;
    QuietMeans(before, found);
    QuietExtends(before, found, Priorities(who));
    if handle.None? {
      // The original process no longer exists, so no modified state remains.
      return code == ERROR_INVALID_PARAMETER, code;
    }
    var identity := VerifyProcessIdentity(m, handle.value, expectedStart);
    ghost var asked := m.trace;
    QuietOn(before, found, asked);
    QuietMeans(before, asked);
    QuietMeans(found, asked);
    QuietExtends(before, asked, Priorities(who));
    if identity == Mismatch {
      // Another process has the pid now; the original one is gone for good.
      GoneStaysGone(Last(found), m.Now(), who, handle.value);
      return true, 0;
    }
    if identity == Error {
      errorCode := m.GetLastError();
      return false, errorCode;
    }
    ok := m.SetPriorityClass(handle.value, originalPriority, true);
    QuietThenExtends(before, asked, m.trace, Priorities(who));
    if !ok { QuietOn(before, asked, m.trace); }
    errorCode := m.GetLastError();
  }

  /** The messages of one close request: numbered in order, and no two to one window. */
  predicate IsRequest(who: Ident, sent: seq<Effect>) {
    && (forall i | 0 <= i < |sent| :: sent[i].CloseSent? && sent[i].who == who && sent[i].nth == i)
    && forall i, j | 0 <= i < j < |sent| :: sent[i].window != sent[j].window
  }

  /** Why a close request sends nothing: a call failed, the process is gone or in front, or no window of it is shown. */
  ghost predicate CloseHindered(who: Ident, p: Moment, q: Moment) {
    || Troubled(p, q) || GoneIn(p, q, who) || Heard(p, q, Foreground(who.pid, true))
    || exists windows ::
         Heard(p, q, Listed(who.pid, windows)) && forall w | w in windows :: Heard(p, q, Shown(w, who.pid, false))
  }

  lemma CloseHinderedWider(who: Ident, p: Moment, q: Moment, r: Moment, s: Moment)
    requires Since(p, q) && Since(q, r) && Since(r, s) && CloseHindered(who, q, r)
    ensures CloseHindered(who, p, s)
  {
    hide Since, Heard, Troubled, GoneIn;
    Wider(p, q, r, s);
    if windows :| Heard(q, r, Listed(who.pid, windows))
                  && forall w | w in windows :: Heard(q, r, Shown(w, who.pid, false))
    {
      assert Heard(p, s, Listed(who.pid, windows));
    }
  }

  /** Everything before the first message: open the process that was meant, and list its windows. */
  method FindWindows(m: Machine, pid: u32, expectedStart: u64)
    returns (handle: Option<Ident>, windows: seq<nat>, errorCode: u32)
    requires m.Valid() && Ident(pid, expectedStart) in m.Now().watch.processes
    modifies m
    ensures m.Valid() && Quiet(old(m.trace), m.trace) && Since(old(m.At()), m.At())
    ensures handle.Some? ==>
              && handle.value == Ident(pid, expectedStart) && Distinct(windows)
              && Heard(old(m.At()), m.At(), Listed(pid, windows))
    ensures handle.None? && expectedStart != 0 ==> CloseHindered(Ident(pid, expectedStart), old(m.At()), m.At())
  {
    hide Extends, Touches, Sane, Heard, Quiet, Distinct;
    windows := [];
    ghost var before, who := m.At(), Ident(pid, expectedStart);
    handle, errorCode := m.OpenProcess(pid);
    ghost var found := m.At();
    QuietMeans(before.trace, found.trace);
    if handle.None? {
      return;
    }
    var identity := VerifyProcessIdentity(m, handle.value, expectedStart);
    ghost var verified := m.At();
    QuietMeans(found.trace, verified.trace);
    QuietOn(before.trace, found.trace, verified.trace);
    if identity != Match {
      GoneStaysGone(Last(found.trace), m.Now(), who, handle.value);
      return None, [], ERROR_INVALID_PARAMETER;
    }
    var foreground := m.OwnsForegroundWindow(pid);
    ghost var asked := m.At();
    QuietOn(before.trace, verified.trace, asked.trace);
    Wider(before, verified, asked, asked);
    if foreground {
      return None, [], ERROR_ACCESS_DISABLED_BY_POLICY;
    }
    var listed := m.EnumWindows(pid);
    QuietOn(before.trace, asked.trace, m.trace);
    Wider(before, asked, m.At(), m.At());
    if listed.None? {
      errorCode := m.GetLastError();
      return None, [], errorCode;
    }
    windows := listed.value;
  }

  datatype Turn = Send | Skip | Halt(late: bool, code: u32)

  /** What was found out right before the turn of a window. */
  ghost predicate HasReason(turn: Turn, pid: u32, window: nat, deadline: nat, p: Moment, q: Moment) {
    match turn
    case Send => Heard(p, q, Foreground(pid, false)) && Heard(p, q, Shown(window, pid, true))
    case Skip => Heard(p, q, Shown(window, pid, false))
    case Halt(late, _) => if late then q.clock >= deadline else Heard(p, q, Foreground(pid, true))
  }

  ghost predicate AllHaveReasons(
      turns: seq<Turn>, pid: u32, windows: seq<nat>, deadline: nat, p: Moment, q: Moment)
    requires |turns| <= |windows|
  {
    forall i | 0 <= i < |turns| :: HasReason(turns[i], pid, windows[i], deadline, p, q)
  }

  /** The windows whose turn it was to get a message, in order. */
  function Served(windows: seq<nat>, turns: seq<Turn>): seq<nat>
    requires |turns| <= |windows|
  {
    if turns == [] then []
    else
      var n := |turns| - 1;
      Served(windows, turns[..n]) + if turns[n] == Send then [windows[n]] else []
  }

  /** The messages went to exactly the windows whose turn it was. */
  predicate WentTo(sent: seq<Effect>, windows: seq<nat>) {
    |sent| == |windows| && forall k | 0 <= k < |sent| :: sent[k].CloseSent? && sent[k].window == windows[k]
  }

  /** Every window has had its turn, or the round was halted at one. */
  predicate Round(windows: seq<nat>, turns: seq<Turn>) {
    && |turns| <= |windows| && (forall i | 0 <= i < |turns| - 1 :: !turns[i].Halt?)
    && (|turns| < |windows| ==> turns != [] && turns[|turns| - 1].Halt?)
  }

  /** The windows listed were gone through in order, each turn had its reason, and the messages were sent by them. */
  ghost predicate WentRound(
      who: Ident, windows: seq<nat>, turns: seq<Turn>, sent: seq<Effect>, deadline: nat, p: Moment, q: Moment)
  {
    && Heard(p, q, Listed(who.pid, windows)) && Round(windows, turns)
    && AllHaveReasons(turns, who.pid, windows, deadline, p, q)
    && IsRequest(who, sent) && WentTo(sent, Served(windows, turns))
  }

  predicate Undelivered(sent: seq<Effect>) {
    exists e | e in sent :: e.CloseSent? && !e.delivered
  }

  lemma ReasonWider(
      turn: Turn, pid: u32, window: nat, deadline: nat, limit: nat, p: Moment, q: Moment, r: Moment, s: Moment)
    requires Since(p, q) && Since(q, r) && Since(r, s) && HasReason(turn, pid, window, deadline, q, r)
    requires limit <= deadline
    ensures HasReason(turn, pid, window, limit, p, s)
  {
    Wider(p, q, r, s);
    hide Heard;
  }

  lemma ReasonsWider(
      turns: seq<Turn>, pid: u32, windows: seq<nat>, deadline: nat, limit: nat,
      p: Moment, q: Moment, r: Moment, s: Moment)
    requires |turns| <= |windows| && AllHaveReasons(turns, pid, windows, deadline, q, r)
    requires Since(p, q) && Since(q, r) && Since(r, s) && limit <= deadline
    ensures AllHaveReasons(turns, pid, windows, limit, p, s)
  {
    hide HasReason, Since;
    forall i | 0 <= i < |turns| ensures HasReason(turns[i], pid, windows[i], limit, p, s) {
      ReasonWider(turns[i], pid, windows[i], deadline, limit, p, q, r, s);
    }
  }

  lemma ReasonsNext(
      turns: seq<Turn>, turn: Turn, pid: u32, windows: seq<nat>, deadline: nat, p: Moment, q: Moment, r: Moment)
    requires |turns| < |windows| && AllHaveReasons(turns, pid, windows, deadline, p, q)
    requires Since(p, q) && Since(q, r) && HasReason(turn, pid, windows[|turns|], deadline, q, r)
    ensures AllHaveReasons(turns + [turn], pid, windows, deadline, p, r)
  {
    ReasonsWider(turns, pid, windows, deadline, deadline, p, p, q, r);
    ReasonWider(turn, pid, windows[|turns|], deadline, deadline, p, q, r, r);
    hide HasReason, Since;
  }

  lemma ServedNext(windows: seq<nat>, turns: seq<Turn>, turn: Turn)
    requires |turns| < |windows|
    ensures Served(windows, turns + [turn])
            == Served(windows, turns) + if turn == Send then [windows[|turns|]] else []
  {
    assert (turns + [turn])[..|turns|] == turns;
  }

  lemma {:induction false} NobodyServed(windows: seq<nat>, turns: seq<Turn>, i: nat)
    requires |turns| <= |windows| && Served(windows, turns) == [] && i < |turns|
    ensures turns[i] != Send
  {
    if i < |turns| - 1 {
      NobodyServed(windows, turns[..|turns| - 1], i);
    }
  }

  /** Without a message, and without being late, there was a reason to send none. */
  lemma SilenceHasReason(
      who: Ident, windows: seq<nat>, turns: seq<Turn>, sent: seq<Effect>, deadline: nat, p: Moment, q: Moment)
    requires WentRound(who, windows, turns, sent, deadline, p, q) && sent == []
    requires turns != [] && turns[|turns| - 1].Halt? ==> !turns[|turns| - 1].late
    ensures CloseHindered(who, p, q)
  {
    hide Heard, IsRequest, Served;
    if turns != [] && turns[|turns| - 1].Halt? {
      assert HasReason(turns[|turns| - 1], who.pid, windows[|turns| - 1], deadline, p, q);
    } else {
      forall w | w in windows ensures Heard(p, q, Shown(w, who.pid, false)) {
        var i :| 0 <= i < |windows| && windows[i] == w;
        NobodyServed(windows, turns, i);
        assert HasReason(turns[i], who.pid, windows[i], deadline, p, q);
      }
    }
  }

  lemma NoMessages(who: Ident)
    ensures IsRequest(who, [])
  {
  }

  function BoundedTimeout(timeoutMs: u32): nat {
    if timeoutMs < 100 then 100 else if timeoutMs > 5000 then 5000 else timeoutMs
  }

  /**
   * A close that neither succeeded nor is uncertain sent nothing, and had a reason to. Each window is sent at most one
   * message: exactly those whose turn it was, in the order they were listed. A close that succeeded although the
   * process lives sent some message, and all of them were delivered; an uncertain one ran out of time, or has a message
   * that was not delivered.
   */
  method RequestGracefulClose(m: Machine, pid: u32, expectedStart: u64, timeoutMs: u32)
    returns (
      result: GracefulCloseResult, ghost sent: seq<Effect>, ghost windows: Option<seq<nat>>, ghost turns: seq<Turn>)
    requires m.Valid() && Ident(pid, expectedStart) in m.Now().watch.processes
    modifies m
    ensures m.Valid() && Since(old(m.At()), m.At())
    ensures !result.success && !result.deliveryUncertain ==> sent == [] && Quiet(old(m.trace), m.trace)
    ensures Extends(old(m.trace), m.trace, Closes(Ident(pid, expectedStart)))
    ensures IsRequest(Ident(pid, expectedStart), sent) && m.Now().log == old(m.Now().log) + sent
    ensures result.windowsSignaled <= |sent|
    ensures result.success && Live(m.Now(), Ident(pid, expectedStart)) ==>
              result.windowsSignaled > 0 && sent != [] && AllDelivered(sent, Ident(pid, expectedStart))
    ensures windows.None? ==> sent == [] && !result.success && !result.deliveryUncertain
    ensures windows.Some? ==>
              WentRound(Ident(pid, expectedStart), windows.value, turns, sent,
                        old(m.clock) + BoundedTimeout(timeoutMs), old(m.At()), m.At())
    ensures !result.success && !result.deliveryUncertain && expectedStart != 0 ==>
              CloseHindered(Ident(pid, expectedStart), old(m.At()), m.At())
    ensures result.deliveryUncertain ==> Undelivered(sent) || m.clock >= old(m.clock) + BoundedTimeout(timeoutMs)
  {
    hide Extends, Touches, Sane, Quiet, Heard, CloseHindered, Undelivered, WentRound, Distinct, IsRequest, AllDelivered,
         Since;
    ghost var who, before := Ident(pid, expectedStart), m.At();
    NoMessages(who);
    result, sent, windows, turns := GracefulCloseResult(false, false, false, 0, 0), [], None, [];
    var handle, listed, code := FindWindows(m, pid, expectedStart);
    QuietMeans(before.trace, m.trace);
    QuietExtends(before.trace, m.trace, Closes(who));
    if handle.None? {
      return result.(errorCode := code), [], None, [];
    }
    ghost var found := m.At();
    var start := m.GetTickCount();
    QuietOn(before.trace, found.trace, m.trace);
    QuietMeans(before.trace, m.trace);
    QuietExtends(before.trace, m.trace, Closes(who));
    SinceOn(before, found, m.At());
    SinceItself(before);
    Wider(before, before, found, m.At());
    var lastError: u32;
    ghost var ready := m.At();
    result, sent, lastError, turns := SendToAll(m, handle.value, listed, start + BoundedTimeout(timeoutMs), before);
    ghost var done := m.At();
    windows := Some(listed);
    var exited := m.WaitForExit(handle.value);
    QuietMeans(done.trace, m.trace);
    RequestThenQuiet(before.trace, done.trace, m.trace, Closes(who),
                     !result.deliveryUncertain && result.windowsSignaled == 0);
    SinceOn(before, done, m.At());
    RoundIsRequest(who, listed, turns, sent, start + BoundedTimeout(timeoutMs), before, done);
    RoundWider(who, listed, turns, sent, start + BoundedTimeout(timeoutMs), before.clock + BoundedTimeout(timeoutMs),
               before, before, done, m.At());
    if !result.deliveryUncertain && result.windowsSignaled == 0 {
      SilenceHasReason(who, listed, turns, sent, before.clock + BoundedTimeout(timeoutMs), before, m.At());
    }
    result := result.(processExited := exited);
    if exited {
      return result.(success := true), sent, windows, turns;
    }
    if result.deliveryUncertain || result.windowsSignaled == 0 {
      return result.(errorCode := if lastError == 0 then ERROR_NOT_FOUND else lastError), sent, windows, turns;
    }
    result := result.(success := true);
  }

  lemma RoundWider(
      who: Ident, windows: seq<nat>, turns: seq<Turn>, sent: seq<Effect>, deadline: nat, limit: nat,
      p: Moment, q: Moment, r: Moment, s: Moment)
    requires WentRound(who, windows, turns, sent, deadline, q, r) && limit <= deadline
    requires Since(p, q) && Since(q, r) && Since(r, s)
    ensures WentRound(who, windows, turns, sent, limit, p, s)
  {
    hide IsRequest, Served, AllHaveReasons, WentTo, Heard, Since;
    Wider(p, q, r, s);
    ReasonsWider(turns, who.pid, windows, deadline, limit, p, q, r, s);
  }

  lemma RequestThenQuiet(a: Trace, b: Trace, c: Trace, scope: Scope, silent: bool)
    requires Extends(a, b, scope) && Quiet(b, c) && (silent ==> Quiet(a, b))
    ensures Extends(a, c, scope) && (silent ==> Quiet(a, c))
  {
    if silent { QuietOn(a, b, c); }
  }

  /** A request that has come to window `i`. */
  ghost predicate RequestSoFar(who: Ident, sent: seq<Effect>, windows: seq<nat>, i: nat)
    requires i <= |windows|
  {
    IsRequest(who, sent) && forall e | e in sent && e.CloseSent? :: e.window in windows[..i]
  }

  lemma NextWindow(who: Ident, sent: seq<Effect>, windows: seq<nat>, i: nat)
    requires i < |windows| && RequestSoFar(who, sent, windows, i)
    ensures RequestSoFar(who, sent, windows, i + 1)
  {
  }

  lemma OneMessageMore(who: Ident, sent: seq<Effect>, windows: seq<nat>, i: nat, delivered: bool)
    requires i < |windows| && Distinct(windows) && RequestSoFar(who, sent, windows, i)
    ensures var more := sent + [CloseSent(who, windows[i], |sent|, delivered)];
            && RequestSoFar(who, more, windows, i + 1)
            && (AllDelivered(sent, who) && delivered ==> AllDelivered(more, who))
  {
    var e := CloseSent(who, windows[i], |sent|, delivered);
    var more := sent + [e];
    forall j | 0 <= j < |sent| ensures sent[j].window != windows[i] {
      assert sent[j] in sent;
    }
    assert windows[i] == windows[..i + 1][i];
    forall f | f in more && f.CloseSent? ensures f.window in windows[..i + 1] {
      if f in sent {
        assert f.window in windows[..i];
      }
    }
  }

  /** The checks made right before a window gets its message. */
  method TurnOf(m: Machine, pid: u32, window: nat, deadline: nat) returns (turn: Turn)
    requires m.Valid()
    modifies m
    ensures m.Valid() && Quiet(old(m.trace), m.trace) && Since(old(m.At()), m.At())
    ensures HasReason(turn, pid, window, deadline, old(m.At()), m.At())
    ensures turn.Halt? && turn.late ==> m.clock >= deadline
  {
    hide Extends, Touches, Sane, Quiet, Heard;
    ghost var before := m.At();
    var foreground := m.OwnsForegroundWindow(pid);
    ghost var asked := m.At();
    if foreground {
      return Halt(false, ERROR_ACCESS_DISABLED_BY_POLICY);
    }
    var shown := m.StillShown(window, pid);
    ghost var seen := m.At();
    QuietOn(before.trace, asked.trace, seen.trace);
    Wider(before, before, asked, seen);
    Wider(before, asked, seen, seen);
    if !shown {
      return Skip;
    }
    var now := m.GetTickCount();
    QuietOn(before.trace, seen.trace, m.trace);
    Wider(before, before, seen, m.At());
    return if now >= deadline then Halt(true, ERROR_TIMEOUT) else Send;
  }

  /** A round in which each of the first windows has had its turn, and none halted it. */
  ghost predicate RoundSoFar(
      who: Ident, windows: seq<nat>, turns: seq<Turn>, sent: seq<Effect>, deadline: nat, p: Moment, q: Moment)
    requires |turns| <= |windows|
  {
    && Since(p, q) && Heard(p, q, Listed(who.pid, windows)) && RequestSoFar(who, sent, windows, |turns|)
    && AllHaveReasons(turns, who.pid, windows, deadline, p, q) && WentTo(sent, Served(windows, turns))
    && forall i | 0 <= i < |turns| :: !turns[i].Halt?
  }

  lemma TurnTaken(
      who: Ident, windows: seq<nat>, turns: seq<Turn>, sent: seq<Effect>, deadline: nat, turn: Turn,
      p: Moment, q: Moment, r: Moment)
    requires |turns| < |windows| && RoundSoFar(who, windows, turns, sent, deadline, p, q) && Since(q, r)
    requires HasReason(turn, who.pid, windows[|turns|], deadline, q, r)
    ensures turn.Skip? ==> RoundSoFar(who, windows, turns + [turn], sent, deadline, p, r)
    ensures turn.Halt? ==> WentRound(who, windows, turns + [turn], sent, deadline, p, r)
  {
    hide Heard, HasReason, IsRequest, Served;
    NextWindow(who, sent, windows, |turns|);
    Wider(p, p, q, r);
    ReasonsNext(turns, turn, who.pid, windows, deadline, p, q, r);
    ServedNext(windows, turns, turn);
    hide AllHaveReasons;
  }

  lemma MessageSent(
      who: Ident, windows: seq<nat>, turns: seq<Turn>, sent: seq<Effect>, deadline: nat, delivered: bool,
      p: Moment, q: Moment, r: Moment, s: Moment)
    requires |turns| < |windows| && RoundSoFar(who, windows, turns, sent, deadline, p, q) && Since(q, r) && Since(r, s)
    requires HasReason(Send, who.pid, windows[|turns|], deadline, q, r) && Distinct(windows)
    ensures var more := sent + [CloseSent(who, windows[|turns|], |sent|, delivered)];
            && RoundSoFar(who, windows, turns + [Send], more, deadline, p, s)
            && (AllDelivered(sent, who) && delivered ==> AllDelivered(more, who))
            && (!delivered || Undelivered(sent) ==> Undelivered(more))
  {
    hide Heard, HasReason, IsRequest, Served, Distinct, AllDelivered, Undelivered, RequestSoFar, WentTo,
         AllHaveReasons, Since;
    OneMessageMore(who, sent, windows, |turns|, delivered);
    UndeliveredMore(sent, CloseSent(who, windows[|turns|], |sent|, delivered));
    ServedNext(windows, turns, Send);
    WentToMore(sent, Served(windows, turns), CloseSent(who, windows[|turns|], |sent|, delivered));
    SinceItself(p);
    Wider(p, p, q, r);
    Wider(p, p, r, s);
    ReasonsNext(turns, Send, who.pid, windows, deadline, p, q, r);
    ReasonsWider(turns + [Send], who.pid, windows, deadline, deadline, p, p, r, s);
  }

  lemma WentToMore(sent: seq<Effect>, windows: seq<nat>, e: Effect)
    requires WentTo(sent, windows) && e.CloseSent?
    ensures WentTo(sent + [e], windows + [e.window])
  {
  }

  lemma RoundDone(
      who: Ident, windows: seq<nat>, turns: seq<Turn>, sent: seq<Effect>, deadline: nat, p: Moment, q: Moment)
    requires |turns| == |windows| && RoundSoFar(who, windows, turns, sent, deadline, p, q)
    ensures WentRound(who, windows, turns, sent, deadline, p, q)
  {
  }

  lemma RoundStarts(who: Ident, windows: seq<nat>, deadline: nat, p: Moment, q: Moment)
    requires Since(p, q) && Heard(p, q, Listed(who.pid, windows))
    ensures RoundSoFar(who, windows, [], [], deadline, p, q) && AllDelivered([], who)
  {
  }

  lemma RoundIsRequest(
      who: Ident, windows: seq<nat>, turns: seq<Turn>, sent: seq<Effect>, deadline: nat, p: Moment, q: Moment)
    requires WentRound(who, windows, turns, sent, deadline, p, q)
    ensures IsRequest(who, sent)
  {
  }

  /** The loop over the windows found. */
  method SendToAll(m: Machine, handle: Ident, windows: seq<nat>, deadline: nat, ghost before: Moment)
    returns (result: GracefulCloseResult, ghost sent: seq<Effect>, lastError: u32, ghost turns: seq<Turn>)
    requires m.Valid() && Distinct(windows) && Quiet(before.trace, m.trace)
    requires Extends(before.trace, m.trace, Closes(handle))
    requires Since(before, m.At()) && Heard(before, m.At(), Listed(handle.pid, windows))
    modifies m
    ensures m.Valid() && Extends(before.trace, m.trace, Closes(handle)) && !result.success
    ensures Since(before, m.At()) && m.Now().log == Last(before.trace).log + sent && result.windowsSignaled <= |sent|
    ensures WentRound(handle, windows, turns, sent, deadline, before, m.At())
    ensures !result.deliveryUncertain ==> AllDelivered(sent, handle)
    ensures result.windowsSignaled == 0 && !result.deliveryUncertain ==> Quiet(before.trace, m.trace) && sent == []
    ensures turns != [] && turns[|turns| - 1].Halt? && turns[|turns| - 1].late ==> result.deliveryUncertain
    ensures result.deliveryUncertain ==> Undelivered(sent) || m.clock >= deadline
  {
    hide Extends, Touches, Sane, Quiet, Heard, Undelivered, HasReason, RoundSoFar, WentRound, AllDelivered, Since,
         Distinct, IsRequest;
    QuietMeans(before.trace, m.trace);
    RoundStarts(handle, windows, deadline, before, m.At());
    result, sent, lastError, turns := GracefulCloseResult(false, false, false, 0, 0), [], 0, [];
    assert m.Now().log == Last(before.trace).log + sent;
    // Only the log of the model counts the messages.
    var attempts: nat := 0;
    for i := 0 to |windows|
      invariant m.Valid() && Extends(before.trace, m.trace, Closes(handle)) && !result.success
      invariant m.Now().log == Last(before.trace).log + sent && result.windowsSignaled <= |sent|
      invariant |turns| == i && attempts == |sent| && Since(before, m.At())
      invariant RoundSoFar(handle, windows, turns, sent, deadline, before, m.At())
      invariant forall j | 0 <= j < i :: !turns[j].Halt?
      invariant !result.deliveryUncertain ==> AllDelivered(sent, handle)
      invariant result.windowsSignaled == 0 && !result.deliveryUncertain ==> Quiet(before.trace, m.trace) && sent == []
      invariant result.deliveryUncertain ==> Undelivered(sent)
    {
      ghost var entered := m.At();
      var turn := TurnOf(m, handle.pid, windows[i], deadline);
      QuietMeans(entered.trace, m.trace);
      RequestThenQuiet(before.trace, entered.trace, m.trace, Closes(handle),
                       result.windowsSignaled == 0 && !result.deliveryUncertain);
      SinceOn(before, entered, m.At());
      TurnTaken(handle, windows, turns, sent, deadline, turn, before, entered, m.At());
      ghost var ready, earlier := m.At(), turns;
      turns := turns + [turn];
      match turn {
        case Halt(late, code) =>
          result, lastError := result.(deliveryUncertain := result.deliveryUncertain || late), code;
          return;
        case Skip =>
          continue;
        case Send =>
      }
      var delivered, code := m.SendClose(handle, windows[i], attempts);
      ExtendsOn(before.trace, ready.trace, m.trace, Closes(handle), Closes(handle), Closes(handle));
      SinceOn(before, ready, m.At());
      MessageSent(handle, windows, earlier, sent, deadline, delivered, before, entered, ready, m.At());
      sent, attempts := sent + [CloseSent(handle, windows[i], attempts, delivered)], attempts + 1;
      if delivered {
        result := result.(windowsSignaled := result.windowsSignaled + 1);
      } else {
        result := result.(deliveryUncertain := true);
        lastError := if code == 0 then ERROR_TIMEOUT else code;
      }
    }
    RoundDone(handle, windows, turns, sent, deadline, before, m.At());
  }

  lemma UndeliveredMore(sent: seq<Effect>, e: Effect)
    ensures Undelivered(sent) ==> Undelivered(sent + [e])
    ensures e.CloseSent? && !e.delivered ==> Undelivered(sent + [e])
  {
    assert e in sent + [e];
    if f :| f in sent && f.CloseSent? && !f.delivered { assert f in sent + [e]; }
  }
}
