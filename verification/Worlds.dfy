/**
 * Everything a Coding Mode session can change or be surprised by, and the invariant that every moment of every run must
 * satisfy, because the program may be killed at any of them.
 */
module Worlds {
  import opened Types
  import opened SessionModel
  import opened Completion
  import opened Planner

  /** A process is known by its pid and its creation time: pids are reused. */
  datatype Ident = Ident(pid: u32, start: u64)

  /** `base` is the priority the process had before the session; `priority` the one it has now. */
  datatype Proc = Proc(start: u64, base: u32, priority: u32)

  /**
   * What was done to the outside since the current session was planned. A close request sends one message to each of
   * its windows: `nth` numbers them, and `delivered` tells whether the sender learned that the message arrived.
   */
  datatype Effect =
    | PrioritySet(who: Ident, value: u32, undo: bool)
    | CloseSent(who: Ident, window: nat, nth: nat, delivered: bool)
    | StopAccepted(name: string)
    | StartAccepted(name: string)

  /** The targets of the current session: other programs leave these alone. */
  datatype Watch = Watch(processes: set<Ident>, services: set<string>)

  datatype Report = Report(tally: Tally, complete: bool)

  /**
   * `seen` holds every process that ever ran; `file` is the active session file; `reports` the completion reports;
   * `failures` counts the calls that reported a failure (that a process does not exist is no failure).
   */
  datatype World = World(
    procs: map<u32, Proc>, seen: set<Ident>, services: map<string, ServiceState>, watch: Watch, log: seq<Effect>,
    file: Option<Session>, reports: map<string, Report>, failures: nat)

  predicate Live(w: World, who: Ident) {
    who.pid in w.procs && w.procs[who.pid].start == who.start
  }

  predicate IsRunning(w: World, name: string) {
    name in w.services && w.services[name] == Running
  }

  /** A priority class is never zero. */
  predicate Sane(w: World) {
    && w.watch.processes <= w.seen
    && forall pid | pid in w.procs ::
         Ident(pid, w.procs[pid].start) in w.seen && w.procs[pid].base != 0 && w.procs[pid].priority != 0
  }

  // ----- What a stretch of a run may do -----

  /** Upper bound on the effects of a stretch of a run. */
  datatype Scope = Scope(priorities: set<Ident>, closes: set<Ident>, stops: set<string>, starts: set<string>)

  const NOTHING := Scope({}, {}, {}, {})

  predicate Allowed(e: Effect, scope: Scope) {
    match e
    case PrioritySet(who, _, _) => who in scope.priorities
    case CloseSent(who, _, _, _) => who in scope.closes
    case StopAccepted(name) => name in scope.stops
    case StartAccepted(name) => name in scope.starts
  }

  /**
   * How the process `p` now found at `pid` relates to `w`: either it ran before and is what it was, or it is new, with
   * a creation time never seen at this pid. Processes nobody watches may also get a new priority of their own.
   */
  predicate ProcessKept(w: World, pid: u32, p: Proc, scope: Scope) {
    var who := Ident(pid, p.start);
    if Live(w, who) then
      if who in w.watch.processes then
        p.base == w.procs[pid].base && (who in scope.priorities || p.priority == w.procs[pid].priority)
      else p == w.procs[pid] || p.priority == p.base
    else
      who !in w.seen && p.priority == p.base
  }

  /** `v` comes after `w`, the files are as they were, and only effects within `scope` were made. */
  predicate Touches(w: World, v: World, scope: Scope) {
    && Sane(w) && Sane(v)
    && v.file == w.file && v.reports == w.reports && v.watch == w.watch
    && w.seen <= v.seen && w.failures <= v.failures
    && w.log <= v.log && (forall e | e in v.log[|w.log|..] :: Allowed(e, scope))
    && (forall pid | pid in v.procs :: ProcessKept(w, pid, v.procs[pid], scope))
    && (forall name | name in w.watch.services && name !in scope.stops && IsRunning(w, name) :: IsRunning(v, name))
  }

  predicate Within(inner: Scope, outer: Scope) {
    && inner.priorities <= outer.priorities && inner.closes <= outer.closes
    && inner.stops <= outer.stops && inner.starts <= outer.starts
  }

  lemma TouchesItself(w: World, scope: Scope)
    requires Sane(w)
    ensures Touches(w, w, scope)
  {
  }

  lemma TouchesOn(w: World, v: World, u: World, first: Scope, second: Scope, scope: Scope)
    requires Touches(w, v, first) && Touches(v, u, second) && Within(first, scope) && Within(second, scope)
    ensures Touches(w, u, scope)
  {
    forall e | e in u.log[|w.log|..] ensures Allowed(e, scope) {
      assert u.log[|w.log|..] == v.log[|w.log|..] + u.log[|v.log|..];
    }
    forall pid | pid in u.procs ensures ProcessKept(w, pid, u.procs[pid], scope) {
      assert ProcessKept(v, pid, u.procs[pid], second);
      if Live(v, Ident(pid, u.procs[pid].start)) {
        assert ProcessKept(w, pid, v.procs[pid], first);
      }
    }
  }

  // ----- Traces -----

  type Trace = t: seq<World> | |t| > 0 witness [World(map[], {}, map[], Watch({}, {}), [], None, map[], 0)]

  function Last(t: Trace): World { t[|t| - 1] }

  /** From `from` on nothing disappears from the log. */
  ghost predicate LogsGrow(t: Trace, from: int) {
    forall i, j | 0 <= i && from <= i <= j < |t| :: t[i].log <= t[j].log
  }

  /** `b` continues `a`; every world from the end of `a` on is within `scope` of that end. */
  ghost predicate Extends(a: Trace, b: Trace, scope: Scope) {
    && a <= b && LogsGrow(b, |a| - 1)
    && forall i | |a| - 1 <= i < |b| :: Touches(Last(a), b[i], scope)
  }

  lemma LogsGrowOn(a: Trace, b: Trace, c: Trace)
    requires a <= b <= c && LogsGrow(b, |a| - 1) && LogsGrow(c, |b| - 1)
    ensures LogsGrow(c, |a| - 1)
  {
    forall i, j | |a| - 1 <= i <= j < |c| ensures c[i].log <= c[j].log {
      if i < |b| - 1 {
        assert c[i] == b[i] && c[|b| - 1] == b[|b| - 1];
        if j < |b| { assert c[j] == b[j]; }
      }
    }
  }

  lemma ExtendsItself(a: Trace, scope: Scope)
    requires Sane(Last(a))
    ensures Extends(a, a, scope)
  {
    TouchesItself(Last(a), scope);
  }

  lemma ExtendsOn(a: Trace, b: Trace, c: Trace, first: Scope, second: Scope, scope: Scope)
    requires Extends(a, b, first) && Extends(b, c, second) && Within(first, scope) && Within(second, scope)
    ensures Extends(a, c, scope)
  {
    forall i | |a| - 1 <= i < |b| ensures Touches(b[i], b[i], second) {
      assert Sane(b[i]);
      TouchesItself(b[i], second);
    }
    LogsGrowOn(a, b, c);
    hide Touches, Within, LogsGrow;
    forall i | |a| - 1 <= i < |c| ensures Touches(Last(a), c[i], scope) {
      if i >= |b| - 1 {
        TouchesOn(Last(a), Last(b), c[i], first, second, scope);
      } else {
        assert c[i] == b[i];
        assert b[|b| - 1] == c[|b| - 1];
        TouchesOn(Last(a), b[i], b[i], first, second, scope);
      }
    }
  }

  /** Nothing was done between `a` and `b`: whatever `a` was within the scope of, `b` is too. */
  ghost predicate Quiet(a: Trace, b: Trace) {
    Extends(a, b, NOTHING)
    && forall start, scope :: Extends(start, a, scope) ==> Extends(start, b, scope)
  }

  lemma QuietItself(a: Trace)
    requires Sane(Last(a))
    ensures Quiet(a, a)
  {
    ExtendsItself(a, NOTHING);
  }

  lemma QuietFromExtends(a: Trace, b: Trace)
    requires Extends(a, b, NOTHING)
    ensures Quiet(a, b)
  {
    hide Extends;
    forall start, scope | Extends(start, a, scope) ensures Extends(start, b, scope) {
      ExtendsOn(start, a, b, scope, NOTHING, scope);
    }
  }

  lemma StepExtends(a: Trace, v: World, scope: Scope)
    requires Touches(Last(a), v, scope)
    ensures Extends(a, a + [v], scope)
  {
    TouchesItself(Last(a), scope);
  }

  lemma QuietStep(a: Trace, v: World)
    requires Touches(Last(a), v, NOTHING)
    ensures Quiet(a, a + [v])
  {
    StepExtends(a, v, NOTHING);
    QuietFromExtends(a, a + [v]);
  }

  lemma ExtendsMeans(a: Trace, b: Trace, scope: Scope)
    requires Extends(a, b, scope)
    ensures a <= b && Touches(Last(a), Last(b), scope) && Last(a).failures <= Last(b).failures
  {
  }

  /** What stays as it is while nothing is done. */
  lemma QuietMeans(a: Trace, b: Trace)
    requires Quiet(a, b)
    ensures a <= b && Touches(Last(a), Last(b), NOTHING)
    ensures Last(b).log == Last(a).log && Last(b).file == Last(a).file && Last(b).watch == Last(a).watch
    ensures Last(b).reports == Last(a).reports && Last(a).failures <= Last(b).failures
  {
    var w, v := Last(a), Last(b);
    assert v.log == w.log + v.log[|w.log|..];
    assert |v.log| > |w.log| ==> !Allowed(v.log[|w.log|..][0], NOTHING);
  }

  lemma QuietOn(a: Trace, b: Trace, c: Trace)
    requires Quiet(a, b) && Quiet(b, c)
    ensures Quiet(a, c)
  {
    hide Extends;
  }

  lemma QuietExtends(a: Trace, b: Trace, scope: Scope)
    requires Quiet(a, b)
    ensures Extends(a, b, scope)
  {
    ExtendsItself(a, scope) by { QuietMeans(a, b); }
    hide Extends;
  }

  lemma QuietThenExtends(a: Trace, b: Trace, c: Trace, scope: Scope)
    requires Quiet(a, b) && Extends(b, c, scope)
    ensures Extends(a, c, scope)
  {
    hide Extends;
    ExtendsOn(a, b, c, NOTHING, scope, scope);
  }

  /** A watched process that lives now lived before, with the same priorities unless they are in scope. */
  lemma WatchedStays(w: World, v: World, scope: Scope, who: Ident)
    requires Touches(w, v, scope) && who in w.watch.processes && Live(v, who)
    ensures Live(w, who) && v.procs[who.pid].base == w.procs[who.pid].base
    ensures who !in scope.priorities ==> v.procs[who.pid].priority == w.procs[who.pid].priority
  {
    assert ProcessKept(w, who.pid, v.procs[who.pid], scope);
  }

  lemma RunningStays(w: World, v: World, scope: Scope, name: string)
    requires Touches(w, v, scope) && name in w.watch.services && name !in scope.stops && IsRunning(w, name)
    ensures IsRunning(v, name)
  {
  }
}
