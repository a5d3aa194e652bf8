/** What WorkBoost has been told by the rest of the machine, and when: the causes of everything that fails. */
module Moments {
  import opened Types
  import opened Utf8
  import opened SessionModel
  import opened Worlds

  datatype ServiceStatus = ServiceStatus(state: ServiceState, pid: u32, acceptsStop: bool)

  /** What a call answered. */
  datatype Answer =
    | Foreground(pid: u32, owns: bool)
    | Listed(pid: u32, windows: seq<nat>)
    | Shown(window: nat, pid: u32, shown: bool)
    | Status(name: string, status: ServiceStatus)
    | Identity(name: string, token: string)
    | Titled(name: string, displayName: string)
    | Dependents(name: string, active: bool)
    | Sampled(snapshot: SystemSnapshot)
    | Trusted(config: Config)
    | Drawn(nonce: seq<byte>)
    | Unread
    | Unsaved(session: Session)

  datatype Moment = Moment(trace: Trace, answers: seq<Answer>, clock: nat)

  /** `q` is `p` or a later moment of the same run. */
  ghost predicate Since(p: Moment, q: Moment) {
    && p.trace <= q.trace && p.answers <= q.answers && p.clock <= q.clock
    && Last(p.trace).failures <= Last(q.trace).failures
  }

  /** `x` was answered between the two moments. */
  ghost predicate Heard(p: Moment, q: Moment, x: Answer) {
    |p.answers| <= |q.answers| && x in q.answers[|p.answers|..]
  }

  /** A call reported a failure between the two moments. */
  ghost predicate Troubled(p: Moment, q: Moment) {
    Last(p.trace).failures < Last(q.trace).failures
  }

  /** At some moment in between, this process did not exist. */
  ghost predicate GoneIn(p: Moment, q: Moment, who: Ident) {
    exists i | |p.trace| - 1 <= i < |q.trace| :: !Live(q.trace[i], who)
  }

  lemma SinceItself(p: Moment)
    ensures Since(p, p)
  {
  }

  lemma SinceOn(p: Moment, q: Moment, r: Moment)
    requires Since(p, q) && Since(q, r)
    ensures Since(p, r)
  {
  }

  lemma HeardNow(p: Moment, q: Moment, x: Answer)
    requires q.answers == p.answers + [x]
    ensures Heard(p, q, x)
  {
    assert q.answers[|p.answers|] == x;
  }

  /** What was heard, failed or gone between two moments was so between wider ones. */
  lemma Wider(p: Moment, q: Moment, r: Moment, s: Moment)
    requires Since(p, q) && Since(q, r) && Since(r, s)
    ensures Since(p, s) && (Troubled(q, r) ==> Troubled(p, s))
    ensures forall x | Heard(q, r, x) :: Heard(p, s, x)
    ensures forall who | GoneIn(q, r, who) :: GoneIn(p, s, who)
  {
    forall x | Heard(q, r, x) ensures Heard(p, s, x) {
      var i :| |q.answers| <= i < |r.answers| && r.answers[i] == x;
      assert s.answers[i] == x;
    }
    forall who | GoneIn(q, r, who) ensures GoneIn(p, s, who) {
      var i :| |q.trace| - 1 <= i < |r.trace| && !Live(r.trace[i], who);
      assert s.trace[i] == r.trace[i];
    }
  }
}
