/** DiagnosisEngine: single-pass loops over a window that must equal direct counts, and what the results imply. */
module Diagnosis {
  import opened Types
  import opened Windows
  import Names

  datatype Kind =
    | MemoryPressureFound
    | PagingPressureFound
    | DiskBottleneck
    | HddPagingBottleneck
    | SsdSpacePressure
    | CpuSaturation
    | DefenderImpactFound
    | BackgroundIoImpact
    | ForegroundAppMemoryPressure

  /** `subject` names the disk or the process, if there is one. */
  datatype Result = Result(
    kind: Kind, severity: Severity, confidence: Confidence, subject: string, matching: nat, samples: nat)

  // ----- Judgements -----

  function ConfidenceFor(fraction: real, samples: nat): Confidence {
    if samples >= 5 && fraction >= 0.75 then Confidence.High
    else if samples >= 2 && fraction >= 0.5 then Confidence.Medium
    else Confidence.Low
  }

  /** The share of `samples` that matched; only asked of a nonempty sample. */
  function Fraction(matching: nat, samples: nat): real {
    if samples == 0 then 0.0 else matching as real / samples as real
  }

  predicate MostOf(matching: nat, samples: nat) { Fraction(matching, samples) >= 0.5 }

  lemma MostMeansHalf(matching: nat, samples: nat)
    requires samples > 0
    ensures MostOf(matching, samples) <==> 2 * matching >= samples
  {
    var share, whole := Fraction(matching, samples), samples as real;
    assert share * whole == matching as real;
    if share >= 0.5 {
      ProductGrows(0.5, share, whole);
    } else {
      ProductGrows(share, 0.5, whole);
    }
  }

  lemma ProductGrows(a: real, b: real, c: real)
    requires c > 0.0
    ensures a <= b ==> a * c <= b * c
    ensures a < b ==> a * c < b * c
  {
    assert b * c - a * c == (b - a) * c;
  }

  lemma MostIsMonotone(less: nat, more: nat, samples: nat)
    requires less <= more && MostOf(less, samples)
    ensures MostOf(more, samples)
  {
    if samples > 0 {
      MostMeansHalf(less, samples);
      MostMeansHalf(more, samples);
    }
  }

  function MinimumEvidence(w: Window): nat {
    if (|w| + 1) / 2 < 2 then 2 else (|w| + 1) / 2
  }

  function PressureSeverity(availableMb: real, commitRatio: real, t: Thresholds): Severity {
    if availableMb < t.availableMemoryMb * 0.5 && commitRatio >= Max(0.9, t.commitWarning) then Severity.High
    else Severity.Medium
  }

  function Graded(high: bool): Severity { if high then Severity.High else Severity.Medium }

  function MeanOf(q: Quantity, w: Window): real
    requires w != []
  {
    Sum(q, w) / |w| as real
  }

  function WindowPressure(w: Window, t: Thresholds): Severity
    requires w != []
  {
    PressureSeverity(MeanOf(AvailableMemory, w) / MIB, MeanOf(CommitRatio, w), t)
  }

  // ----- Results about the whole machine -----

  function OneIf(condition: bool, r: Result): seq<Result> { if condition then [r] else [] }

  function MemoryResults(w: Window, t: Thresholds): seq<Result>
    requires w != []
  {
    var hits := Count(MemoryPressure(t), w);
    OneIf(MostOf(hits, |w|),
          Result(MemoryPressureFound, WindowPressure(w, t), ConfidenceFor(Fraction(hits, |w|), |w|), "", hits, |w|))
  }

  function PagingResults(w: Window, t: Thresholds): seq<Result>
    requires w != []
  {
    var hits := Count(PagingPressure(t), w);
    OneIf(MostOf(hits, |w|),
          Result(PagingPressureFound, Graded(MeanOf(PageReads, w) >= t.pageReads * 3.0),
                 ConfidenceFor(Fraction(hits, |w|), |w|), "", hits, |w|))
  }

  function CpuResults(w: Window, t: Thresholds): seq<Result>
    requires w != []
  {
    var hits := Count(CpuSaturated(t), w);
    OneIf(MostOf(hits, |w|),
          Result(CpuSaturation, Graded(MeanOf(Cpu, w) >= 97.0), ConfidenceFor(Fraction(hits, |w|), |w|), "", hits, |w|))
  }

  function DefenderResults(w: Window, t: Thresholds): seq<Result> {
    var complete, hits := Count(ProcessesComplete, w), Count(DefenderImpact(t), w);
    OneIf(Count(DefenderSeen, w) != 0 && complete >= MinimumEvidence(w) && MostOf(hits, complete),
          Result(DefenderImpactFound,
                 Graded(MostOf(Count(DefenderUsesCpu(t), w), complete)
                        && MostOf(Count(DefenderUsesIo(t), w), complete)),
                 ConfidenceFor(Fraction(hits, complete), complete), "", hits, complete))
  }

  /** Paging is only ever found together with memory pressure, on no more samples. */
  lemma PagingNeedsMemory(w: Window, t: Thresholds)
    requires w != [] && PagingResults(w, t) != []
    ensures MemoryResults(w, t) != []
    ensures MemoryResults(w, t)[0].matching >= PagingResults(w, t)[0].matching
  {
    CountMonotone(PagingPressure(t), MemoryPressure(t), w);
    MostIsMonotone(Count(PagingPressure(t), w), Count(MemoryPressure(t), w), |w|);
  }

  // ----- Disks -----

  /** One disk in one snapshot. */
  datatype Sight = Sight(s: SystemSnapshot, d: DiskSnapshot)

  function SightsIn(s: SystemSnapshot, disks: seq<DiskSnapshot>): seq<Sight> {
    seq(|disks|, i requires 0 <= i < |disks| => Sight(s, disks[i]))
  }

  function Sights(w: Window): seq<Sight> {
    if w == [] then [] else Sights(w[..|w| - 1]) + SightsIn(w[|w| - 1], w[|w| - 1].disks)
  }

  datatype DiskQuestion =
    | Observed
    | Bottleneck(t: Thresholds)
    | HddPaging(t: Thresholds)
    | SpaceKnown
    | LowSpace(t: Thresholds)

  function LatencyLimit(d: DiskSnapshot, t: Thresholds): real {
    if d.media == SSD then Max(8.0, t.hddLatencyMs / 3.0) else t.hddLatencyMs
  }

  predicate IsBottleneck(d: DiskSnapshot, t: Thresholds) {
    d.activeRatio >= t.diskActiveRatio && d.averageLatencyMs >= LatencyLimit(d, t)
  }

  predicate DiskHolds(q: DiskQuestion, x: Sight) {
    match q
    case Observed => true
    case Bottleneck(t) => IsBottleneck(x.d, t)
    case HddPaging(t) =>
      IsBottleneck(x.d, t) && x.d.media == HDD && IsMemoryPressure(x.s, t) && x.s.pageReads >= t.pageReads
    case SpaceKnown => x.d.media == SSD && x.d.spaceComplete
    case LowSpace(t) => x.d.media == SSD && x.d.spaceComplete && x.d.FreeSpaceRatio() <= t.ssdFreeSpaceRatio
  }

  /** How many sights of this disk answer yes. */
  function DiskCount(q: DiskQuestion, name: string, sights: seq<Sight>): nat {
    if sights == [] then 0
    else
      var x := sights[|sights| - 1];
      DiskCount(q, name, sights[..|sights| - 1]) + if x.d.instance == name && DiskHolds(q, x) then 1 else 0
  }

  function LatencySum(name: string, sights: seq<Sight>): real {
    if sights == [] then 0.0
    else
      var x := sights[|sights| - 1];
      LatencySum(name, sights[..|sights| - 1]) + if x.d.instance == name then x.d.averageLatencyMs else 0.0
  }

  /** The free-space ratio at the last sight that knew it. */
  function LastFree(name: string, sights: seq<Sight>): real {
    if sights == [] then 0.0
    else
      var x := sights[|sights| - 1];
      if x.d.instance == name && DiskHolds(SpaceKnown, x) then x.d.FreeSpaceRatio()
      else LastFree(name, sights[..|sights| - 1])
  }

  lemma DiskStep(sights: seq<Sight>, x: Sight)
    ensures forall q, name :: DiskCount(q, name, sights + [x])
                              == DiskCount(q, name, sights) + if x.d.instance == name && DiskHolds(q, x) then 1 else 0
    ensures forall name :: LatencySum(name, sights + [x])
                           == LatencySum(name, sights) + if x.d.instance == name then x.d.averageLatencyMs else 0.0
    ensures forall name :: LastFree(name, sights + [x])
                           == if x.d.instance == name && DiskHolds(SpaceKnown, x) then x.d.FreeSpaceRatio()
                              else LastFree(name, sights)
  {
    assert (sights + [x])[..|sights|] == sights;
  }

  lemma {:induction false} DiskMonotone(q: DiskQuestion, r: DiskQuestion, name: string, sights: seq<Sight>)
    requires forall x | x in sights :: DiskHolds(q, x) ==> DiskHolds(r, x)
    ensures DiskCount(q, name, sights) <= DiskCount(r, name, sights)
  {
    if sights != [] {
      DiskMonotone(q, r, name, sights[..|sights| - 1]);
    }
  }

  /** The places of the sights of this disk that answer yes. */
  function DiskPlaces(q: DiskQuestion, name: string, sights: seq<Sight>): set<int> {
    set i | 0 <= i < |sights| && sights[i].d.instance == name && DiskHolds(q, sights[i])
  }

  lemma DiskPlacesGrow(q: DiskQuestion, name: string, sights: seq<Sight>)
    requires sights != []
    ensures var n := |sights| - 1;
            && n !in DiskPlaces(q, name, sights[..n])
            && DiskPlaces(q, name, sights)
               == DiskPlaces(q, name, sights[..n])
                  + if sights[n].d.instance == name && DiskHolds(q, sights[n]) then {n} else {}
  {
    hide DiskHolds;
  }

  /** Counting is taking the size of the set of sights that answer yes. */
  lemma {:induction false} DiskCountIsCardinality(q: DiskQuestion, name: string, sights: seq<Sight>)
    ensures DiskCount(q, name, sights) == |DiskPlaces(q, name, sights)|
  {
    if sights == [] {
      assert DiskPlaces(q, name, sights) == {};
    } else {
      hide DiskPlaces, DiskHolds;
      DiskCountIsCardinality(q, name, sights[..|sights| - 1]);
      DiskPlacesGrow(q, name, sights);
    }
  }

  function SlowResult(t: Thresholds, name: string, x: seq<Sight>): seq<Result>
    requires DiskCount(Observed, name, x) > 0
  {
    var seen, slow := DiskCount(Observed, name, x), DiskCount(Bottleneck(t), name, x);
    OneIf(MostOf(slow, seen),
          Result(DiskBottleneck, Graded(LatencySum(name, x) / seen as real >= t.hddLatencyMs * 2.0),
                 ConfidenceFor(Fraction(slow, seen), seen), name, slow, seen))
  }

  function HddPagingResult(t: Thresholds, name: string, x: seq<Sight>): seq<Result> {
    var seen, paging := DiskCount(Observed, name, x), DiskCount(HddPaging(t), name, x);
    OneIf(MostOf(paging, seen),
          Result(HddPagingBottleneck, Severity.High, ConfidenceFor(Fraction(paging, seen), seen), name, paging, seen))
  }

  function SpaceResult(w: Window, t: Thresholds, name: string, x: seq<Sight>): seq<Result> {
    var known, low := DiskCount(SpaceKnown, name, x), DiskCount(LowSpace(t), name, x);
    OneIf(known >= MinimumEvidence(w) && MostOf(low, known),
          Result(SsdSpacePressure, Graded(LastFree(name, x) <= Min(0.02, t.ssdFreeSpaceRatio * 0.25)),
                 ConfidenceFor(Fraction(low, known), known), name, low, known))
  }

  /** The results about one disk. */
  function DiskResults(w: Window, t: Thresholds, name: string): seq<Result> {
    var x := Sights(w);
    if DiskCount(Observed, name, x) < MinimumEvidence(w) then []
    else SlowResult(t, name, x) + HddPagingResult(t, name, x) + SpaceResult(w, t, name, x)
  }

  function Min(a: real, b: real): real { if b < a then b else a }

  lemma SlowWhenPaging(t: Thresholds, name: string, x: seq<Sight>, r: Result)
    requires DiskCount(Observed, name, x) > 0 && r in HddPagingResult(t, name, x)
    ensures |SlowResult(t, name, x)| == 1
    ensures var q := SlowResult(t, name, x)[0];
            q.kind == DiskBottleneck && q.subject == r.subject && q.matching >= r.matching && q.samples == r.samples
  {
    hide DiskCount, LatencySum, Fraction, ConfidenceFor, Graded, MostOf;
    DiskMonotone(HddPaging(t), Bottleneck(t), name, x);
    MostIsMonotone(DiskCount(HddPaging(t), name, x), DiskCount(Bottleneck(t), name, x), DiskCount(Observed, name, x));
  }

  lemma KindsOnDisk(w: Window, t: Thresholds, name: string, x: seq<Sight>, r: Result)
    requires DiskCount(Observed, name, x) > 0
    ensures r in SlowResult(t, name, x) ==> r.kind == DiskBottleneck
    ensures r in SpaceResult(w, t, name, x) ==> r.kind == SsdSpacePressure
  {
    hide DiskCount, LatencySum, LastFree, Fraction, ConfidenceFor, Graded, MostOf, MinimumEvidence, Min;
  }

  /** Slow paging on a hard disk is only ever found on a disk that is a bottleneck, on no more samples. */
  lemma HddPagingNeedsBottleneck(w: Window, t: Thresholds, name: string, r: Result)
    requires r in DiskResults(w, t, name) && r.kind == HddPagingBottleneck
    ensures exists q | q in DiskResults(w, t, name) ::
              q.kind == DiskBottleneck && q.subject == r.subject && q.matching >= r.matching && q.samples == r.samples
  {
    hide DiskCount, Sights, SlowResult, HddPagingResult, SpaceResult;
    var x := Sights(w);
    KindsOnDisk(w, t, name, x, r);
    SlowWhenPaging(t, name, x, r);
    assert SlowResult(t, name, x)[0] in DiskResults(w, t, name);
  }

  /** Enough samples, at least half of which match, for a confidence that is not low. */
  predicate HasEvidence(w: Window, r: Result) {
    && r.samples >= MinimumEvidence(w) && MostOf(r.matching, r.samples)
    && r.confidence == ConfidenceFor(Fraction(r.matching, r.samples), r.samples)
  }

  lemma EvidenceMeans(w: Window, r: Result)
    requires HasEvidence(w, r)
    ensures r.samples >= 2 && 2 * r.samples >= |w| && 2 * r.matching >= r.samples && r.confidence != Confidence.Low
  {
    MostMeansHalf(r.matching, r.samples);
  }

  lemma DiskResultsHaveEvidence(w: Window, t: Thresholds, name: string)
    ensures forall r | r in DiskResults(w, t, name) :: HasEvidence(w, r) && r.subject == name
  {
    hide DiskCount, LatencySum, LastFree, Fraction, Sights, ConfidenceFor, MostOf, MinimumEvidence, Graded, Min;
  }

  // ----- Processes -----

  datatype Who = Who(pid: u32, start: u64)

  /** One process in one snapshot. */
  datatype Glimpse = Glimpse(s: SystemSnapshot, p: ProcessSnapshot)
  {
    function Id(): Who { Who(p.pid, p.startTime) }
  }

  function GlimpsesIn(s: SystemSnapshot, processes: seq<ProcessSnapshot>): seq<Glimpse> {
    seq(|processes|, i requires 0 <= i < |processes| => Glimpse(s, processes[i]))
  }

  function Glimpses(w: Window): seq<Glimpse> {
    if w == [] then [] else Glimpses(w[..|w| - 1]) + GlimpsesIn(w[|w| - 1], w[|w| - 1].processes)
  }

  /** Background programs nobody protects, seen while that could be known. */
  predicate IsCandidate(x: Glimpse) { x.s.processComplete && x.s.tcpComplete && Qualifies(x.p) }

  predicate IsPressedForeground(x: Glimpse, t: Thresholds) {
    x.s.processComplete && IsMemoryPressure(x.s, t) && x.p.isForeground && x.p.classification.Development?
  }

  datatype Role = Background | Foreground

  predicate Matches(role: Role, x: Glimpse, t: Thresholds) {
    match role
    case Background => IsCandidate(x) && x.p.IoBytesPerSec() >= t.backgroundIo
    case Foreground => IsPressedForeground(x, t)
  }

  predicate Belongs(role: Role, x: Glimpse, t: Thresholds) {
    match role
    case Background => IsCandidate(x)
    case Foreground => IsPressedForeground(x, t)
  }

  function Matching(role: Role, t: Thresholds, who: Who, glimpses: seq<Glimpse>): nat {
    if glimpses == [] then 0
    else
      var x := glimpses[|glimpses| - 1];
      Matching(role, t, who, glimpses[..|glimpses| - 1]) + if x.Id() == who && Matches(role, x, t) then 1 else 0
  }

  function IoTotal(who: Who, glimpses: seq<Glimpse>): real {
    if glimpses == [] then 0.0
    else
      var x := glimpses[|glimpses| - 1];
      IoTotal(who, glimpses[..|glimpses| - 1])
      + if x.Id() == who && IsCandidate(x) then x.p.IoBytesPerSec() else 0.0
  }

  /** The name the process had when it was last seen in this role. */
  function LastName(role: Role, t: Thresholds, who: Who, glimpses: seq<Glimpse>): string {
    if glimpses == [] then ""
    else
      var x := glimpses[|glimpses| - 1];
      if x.Id() == who && Belongs(role, x, t) then x.p.name
      else LastName(role, t, who, glimpses[..|glimpses| - 1])
  }

  /** A process active in this role in most of the samples that could tell. */
  predicate Sustained(role: Role, w: Window, t: Thresholds, who: Who) {
    Samples(role, w) >= MinimumEvidence(w) && MostOf(Matching(role, t, who, Glimpses(w)), Samples(role, w))
  }

  function Samples(role: Role, w: Window): nat {
    Count(match role case Background => ProtectionComplete case Foreground => ProcessesComplete, w)
  }

  /** What processes are compared by. */
  function Weight(role: Role, w: Window, t: Thresholds, who: Who): real {
    match role
    case Background => if Samples(role, w) == 0 then 0.0 else IoTotal(who, Glimpses(w)) / Samples(role, w) as real
    case Foreground => Matching(role, t, who, Glimpses(w)) as real
  }

  /** The order in which processes are compared: by pid, then by creation time. */
  predicate Earlier(a: Who, b: Who) { a.pid < b.pid || (a.pid == b.pid && a.start < b.start) }

  predicate Beats(role: Role, w: Window, t: Thresholds, top: Who, who: Who) {
    || Weight(role, w, t, who) < Weight(role, w, t, top)
    || (Weight(role, w, t, who) == Weight(role, w, t, top) && Earlier(top, who))
  }

  /** The choice is the first of the processes that qualify and weigh most, if any qualifies. */
  ghost predicate IsHeaviest(role: Role, w: Window, t: Thresholds, choice: Option<Who>) {
    match choice
    case None => forall who :: !Sustained(role, w, t, who)
    case Some(top) =>
      && Sustained(role, w, t, top)
      && forall who | Sustained(role, w, t, who) && who != top :: Beats(role, w, t, top, who)
  }

  function ImpactResults(role: Role, w: Window, t: Thresholds, choice: Option<Who>): seq<Result>
    requires w != []
  {
    match choice
    case None => []
    case Some(who) =>
      var hits, samples := Matching(role, t, who, Glimpses(w)), Samples(role, w);
      [Result(
         match role case Background => BackgroundIoImpact case Foreground => ForegroundAppMemoryPressure,
         match role
         case Background => Graded(Weight(role, w, t, who) >= t.backgroundIo * 3.0)
         case Foreground => WindowPressure(w, t),
         ConfidenceFor(Fraction(hits, samples), samples), LastName(role, t, who, Glimpses(w)), hits, samples)]
  }

  // ----- The order of the results -----

  function Of(severity: Severity, results: seq<Result>): seq<Result> {
    if results == [] then []
    else (if results[0].severity == severity then [results[0]] else []) + Of(severity, results[1..])
  }

  /** std::stable_sort, most severe first. */
  function StableSort(results: seq<Result>): seq<Result> {
    Of(Severity.High, results) + Of(Severity.Medium, results) + Of(Severity.Low, results)
  }

  function Rank(severity: Severity): nat {
    match severity case Low => 0 case Medium => 1 case High => 2
  }

  lemma {:induction false} OfIsPlain(severity: Severity, results: seq<Result>)
    ensures forall r | r in Of(severity, results) :: r.severity == severity
    ensures forall r | r in results && r.severity == severity :: r in Of(severity, results)
  {
    if results != [] {
      OfIsPlain(severity, results[1..]);
    }
  }

  function OneOf(severity: Severity, r: Result): seq<Result> { if r.severity == severity then [r] else [] }

  lemma OfFirst(severity: Severity, first: Result, rest: seq<Result>)
    ensures Of(severity, [first] + rest) == OneOf(severity, first) + Of(severity, rest)
  {
    assert ([first] + rest)[1..] == rest;
  }

  lemma HeadThenTail<T>(a: seq<T>, b: seq<T>)
    requires a != []
    ensures a == [a[0]] + a[1..] && a + b == [a[0]] + (a[1..] + b)
  {
  }

  lemma Joined<T>(a: seq<T>, b: seq<T>, c: seq<T>)
    ensures a + (b + c) == a + b + c
  {
  }

  lemma {:induction false} OfAgain(severity: Severity, a: seq<Result>, b: seq<Result>)
    ensures Of(severity, a + b) == Of(severity, a) + Of(severity, b)
  {
    if a == [] {
      assert a + b == b;
    } else {
      hide Of, OneOf;
      OfAgain(severity, a[1..], b);
      HeadThenTail(a, b);
      OfFirst(severity, a[0], a[1..]);
      OfFirst(severity, a[0], a[1..] + b);
      Joined(OneOf(severity, a[0]), Of(severity, a[1..]), Of(severity, b));
    }
  }

  lemma {:induction false} OfFiltered(severity: Severity, other: Severity, results: seq<Result>)
    ensures Of(severity, Of(other, results)) == if severity == other then Of(severity, results) else []
  {
    if results != [] {
      OfFiltered(severity, other, results[1..]);
      var first := if results[0].severity == other then [results[0]] else [];
      OfAgain(severity, first, Of(other, results[1..]));
    }
  }

  lemma {:induction false} SplitBySeverity(results: seq<Result>)
    ensures multiset(StableSort(results)) == multiset(results)
  {
    hide Of, OneOf;
    if results == [] {
      OfNothing();
    } else {
      SplitBySeverity(results[1..]);
      HeadThenTail(results, []);
      forall severity ensures Of(severity, results) == OneOf(severity, results[0]) + Of(severity, results[1..]) {
        HeadThenTail(results, []);
        OfFirst(severity, results[0], results[1..]);
      }
      OneOfEach(results[0]);
    }
  }

  lemma OfNothing()
    ensures forall severity :: Of(severity, []) == []
  {
  }

  lemma OneOfEach(r: Result)
    ensures multiset(OneOf(Severity.High, r)) + multiset(OneOf(Severity.Medium, r)) + multiset(OneOf(Severity.Low, r))
         == multiset{r}
  {
  }

  lemma SortIsDescending(results: seq<Result>)
    ensures forall i, j | 0 <= i < j < |StableSort(results)| ::
              Rank(StableSort(results)[i].severity) >= Rank(StableSort(results)[j].severity)
  {
    OfIsPlain(Severity.High, results);
    OfIsPlain(Severity.Medium, results);
    OfIsPlain(Severity.Low, results);
    var high, medium, low := Of(Severity.High, results), Of(Severity.Medium, results), Of(Severity.Low, results);
    var sorted := high + medium + low;
    assert StableSort(results) == sorted;
    hide Of, StableSort;
    forall i, j | 0 <= i < j < |sorted| ensures Rank(sorted[i].severity) >= Rank(sorted[j].severity) {
      assert sorted[i] in (if i < |high| then high else if i < |high| + |medium| then medium else low);
      assert sorted[j] in (if j < |high| then high else if j < |high| + |medium| then medium else low);
    }
  }

  lemma SortKeepsOrder(results: seq<Result>, severity: Severity)
    ensures Of(severity, StableSort(results)) == Of(severity, results)
  {
    var high, medium, low := Of(Severity.High, results), Of(Severity.Medium, results), Of(Severity.Low, results);
    OfAgain(severity, high + medium, low);
    OfAgain(severity, high, medium);
    OfFiltered(severity, Severity.High, results);
    OfFiltered(severity, Severity.Medium, results);
    OfFiltered(severity, Severity.Low, results);
    hide Of;
  }

  /** A stable descending sort: same results, most severe first, equals in the order they were found. */
  lemma SortIsStable(results: seq<Result>)
    ensures multiset(StableSort(results)) == multiset(results)
    ensures forall i, j | 0 <= i < j < |StableSort(results)| ::
              Rank(StableSort(results)[i].severity) >= Rank(StableSort(results)[j].severity)
    ensures forall severity :: Of(severity, StableSort(results)) == Of(severity, results)
  {
    SplitBySeverity(results);
    SortIsDescending(results);
    forall severity ensures Of(severity, StableSort(results)) == Of(severity, results) {
      SortKeepsOrder(results, severity);
    }
  }

  // ----- The loops -----

  /** Counters of the loop over the whole machine. */
  datatype Machine = Machine(
    memory: nat, paging: nat, cpuHits: nat, availableMb: real, commitRatio: real, pageReads: real, cpu: real)

  ghost predicate CountsMachine(m: Machine, w: Window, t: Thresholds) {
    && m.memory == Count(MemoryPressure(t), w) && m.paging == Count(PagingPressure(t), w)
    && m.cpuHits == Count(CpuSaturated(t), w)
    && m.availableMb == Sum(AvailableMemory, w) / MIB && m.commitRatio == Sum(CommitRatio, w)
    && m.pageReads == Sum(PageReads, w) && m.cpu == Sum(Cpu, w)
  }

  method CountMachine(w: Window, t: Thresholds) returns (m: Machine)
    ensures CountsMachine(m, w, t)
  {
    m := Machine(0, 0, 0, 0.0, 0.0, 0.0, 0.0);
    for i := 0 to |w|
      invariant CountsMachine(m, w[..i], t)
    {
      var s := w[i];
      forall q ensures Sum(q, w[..i + 1]) == Sum(q, w[..i]) + Measure(q, s) {
        SumStep(q, w, i);
      }
      forall q ensures Count(q, w[..i + 1]) == Count(q, w[..i]) + if Holds(q, s) then 1 else 0 {
        CountStep(q, w, i);
      }
      hide Sum, Count;
      var pressure := IsMemoryPressure(s, t);
      m := Machine(
        m.memory + (if pressure then 1 else 0),
        m.paging + (if pressure && s.pageReads >= t.pageReads then 1 else 0),
        m.cpuHits + (if s.cpuPercent >= t.cpuSaturationRatio * 100.0 then 1 else 0),
        m.availableMb + s.memory.available as real / MIB, m.commitRatio + s.memory.CommitRatio(),
        m.pageReads + s.pageReads, m.cpu + s.cpuPercent);
    }
    assert w[..|w|] == w;
  }

  /** Counters of one disk. */
  datatype DiskAggregate = DiskAggregate(
    observations: nat, bottleneckHits: nat, pagingHits: nat, latencySum: real, spaceObservations: nat,
    lowSpaceHits: nat, freeRatio: real)

  const NO_DISK := DiskAggregate(0, 0, 0, 0.0, 0, 0, 0.0)

  type DiskMap = map<string, DiskAggregate>

  function At(m: DiskMap, name: string): DiskAggregate { if name in m then m[name] else NO_DISK }

  function DiskAggregateOf(name: string, x: seq<Sight>, t: Thresholds): DiskAggregate {
    DiskAggregate(
      DiskCount(Observed, name, x), DiskCount(Bottleneck(t), name, x), DiskCount(HddPaging(t), name, x),
      LatencySum(name, x), DiskCount(SpaceKnown, name, x), DiskCount(LowSpace(t), name, x), LastFree(name, x))
  }

  ghost predicate CountsDisks(m: DiskMap, x: seq<Sight>, t: Thresholds) {
    && (forall name :: At(m, name) == DiskAggregateOf(name, x, t))
    && forall name | name in m :: At(m, name).observations > 0
  }

  /** What one sight adds to the counters of its disk. */
  function AddSight(a: DiskAggregate, x: Sight, t: Thresholds): DiskAggregate {
    var known := x.d.media == SSD && x.d.spaceComplete;
    var bottleneck :=
      x.d.activeRatio >= t.diskActiveRatio
      && x.d.averageLatencyMs >= if x.d.media == SSD then Max(8.0, t.hddLatencyMs / 3.0) else t.hddLatencyMs;
    DiskAggregate(
      a.observations + 1, a.bottleneckHits + (if bottleneck then 1 else 0),
      a.pagingHits + (if bottleneck && x.d.media == HDD && IsMemoryPressure(x.s, t) && x.s.pageReads >= t.pageReads
                      then 1 else 0),
      a.latencySum + x.d.averageLatencyMs,
      a.spaceObservations + (if known then 1 else 0),
      a.lowSpaceHits + (if known && x.d.FreeSpaceRatio() <= t.ssdFreeSpaceRatio then 1 else 0),
      if known then x.d.FreeSpaceRatio() else a.freeRatio)
  }

  lemma SightAdds(x: seq<Sight>, next: Sight, t: Thresholds)
    ensures forall name :: DiskAggregateOf(name, x + [next], t)
                           == if name == next.d.instance then AddSight(DiskAggregateOf(name, x, t), next, t)
                              else DiskAggregateOf(name, x, t)
  {
    DiskStep(x, next);
    hide DiskCount, LatencySum, LastFree;
  }

  lemma SightsStep(w: Window, i: nat)
    requires i < |w|
    ensures Sights(w[..i + 1]) == Sights(w[..i]) + SightsIn(w[i], w[i].disks)
  {
    assert w[..i + 1][..i] == w[..i];
  }

  lemma DiskMapStep(m: DiskMap, x: seq<Sight>, next: Sight, t: Thresholds)
    requires CountsDisks(m, x, t)
    ensures CountsDisks(m[next.d.instance := AddSight(At(m, next.d.instance), next, t)], x + [next], t)
  {
    SightAdds(x, next, t);
    SightCounts(At(m, next.d.instance), next, t);
    hide DiskAggregateOf, AddSight;
    var n := m[next.d.instance := AddSight(At(m, next.d.instance), next, t)];
    forall name ensures At(n, name) == DiskAggregateOf(name, x + [next], t) {
      assert At(m, name) == DiskAggregateOf(name, x, t);
    }
    forall name | name in n ensures At(n, name).observations > 0 {
      assert name in m ==> At(m, name).observations > 0;
    }
  }

  /** The inner loop, over the disks of one sample. */
  method CountDisksOf(s: SystemSnapshot, t: Thresholds, before: DiskMap, ghost x: seq<Sight>) returns (m: DiskMap)
    requires CountsDisks(before, x, t)
    ensures CountsDisks(m, x + SightsIn(s, s.disks), t)
  {
    m := before;
    assert x + SightsIn(s, s.disks[..0]) == x;
    for j := 0 to |s.disks|
      invariant CountsDisks(m, x + SightsIn(s, s.disks[..j]), t)
    {
      var d := s.disks[j];
      ghost var y := x + SightsIn(s, s.disks[..j]);
      assert x + SightsIn(s, s.disks[..j + 1]) == y + [Sight(s, d)];
      hide CountsDisks, AddSight, At;
      DiskMapStep(m, y, Sight(s, d), t);
      m := m[d.instance := AddSight(At(m, d.instance), Sight(s, d), t)];
    }
    assert s.disks[..|s.disks|] == s.disks;
  }

  /** The nested loop over samples and disks. */
  method CountDisks(w: Window, t: Thresholds) returns (m: DiskMap)
    ensures CountsDisks(m, Sights(w), t)
  {
    m := map[];
    for i := 0 to |w|
      invariant CountsDisks(m, Sights(w[..i]), t)
    {
      SightsStep(w, i);
      hide CountsDisks, Sights, SightsIn;
      m := CountDisksOf(w[i], t, m, Sights(w[..i]));
    }
    assert w[..|w|] == w;
  }

  lemma SightCounts(a: DiskAggregate, x: Sight, t: Thresholds)
    ensures AddSight(a, x, t).observations > 0
  {
  }

  /** The disks of a window, in the order of their names. */
  ghost predicate ListsDisks(names: seq<string>, w: Window) {
    && (forall i, j | 0 <= i < j < |names| :: Names.Before(names[i], names[j]))
    && forall name :: name in names <==> DiskCount(Observed, name, Sights(w)) > 0
  }

  function AllDiskResults(w: Window, t: Thresholds, names: seq<string>): seq<Result> {
    if names == [] then []
    else AllDiskResults(w, t, names[..|names| - 1]) + DiskResults(w, t, names[|names| - 1])
  }

  /** The results of one disk out of its counters. */
  method JudgeDisk(w: Window, t: Thresholds, name: string, a: DiskAggregate, minimum: nat)
    returns (results: seq<Result>)
    requires a == DiskAggregateOf(name, Sights(w), t) && minimum == MinimumEvidence(w)
    ensures results == DiskResults(w, t, name)
  {
    results := [];
    hide DiskCount, LatencySum, LastFree, Sights;
    if a.observations < minimum {
      return;
    }
    var fraction := a.bottleneckHits as real / a.observations as real;
    if fraction >= 0.5 {
      results := results + [
        Result(DiskBottleneck, Graded(a.latencySum / a.observations as real >= t.hddLatencyMs * 2.0),
               ConfidenceFor(fraction, a.observations), name, a.bottleneckHits, a.observations)];
    }
    var hddFraction := a.pagingHits as real / a.observations as real;
    if hddFraction >= 0.5 {
      results := results + [
        Result(HddPagingBottleneck, Severity.High, ConfidenceFor(hddFraction, a.observations), name, a.pagingHits,
               a.observations)];
    }
    if a.spaceObservations >= minimum {
      var spaceFraction := a.lowSpaceHits as real / a.spaceObservations as real;
      if spaceFraction >= 0.5 {
        results := results + [
          Result(SsdSpacePressure, Graded(a.freeRatio <= Min(0.02, t.ssdFreeSpaceRatio * 0.25)),
                 ConfidenceFor(spaceFraction, a.spaceObservations), name, a.lowSpaceHits, a.spaceObservations)];
      }
    }
  }

  /** The loop over the map of disks, which is walked in the order of its keys. */
  method JudgeDisks(w: Window, t: Thresholds, m: DiskMap) returns (results: seq<Result>, ghost names: seq<string>)
    requires CountsDisks(m, Sights(w), t)
    ensures ListsDisks(names, w) && results == AllDiskResults(w, t, names)
  {
    results, names := [], [];
    var minimum := MinimumEvidence(w);
    var left := m.Keys;
    hide DiskCount, DiskResults, Sights;
    while left != {}
      invariant left <= m.Keys && forall name :: name in names <==> name in m.Keys - left
      invariant forall i, j | 0 <= i < j < |names| :: Names.Before(names[i], names[j])
      invariant forall i, later | 0 <= i < |names| && later in left :: Names.Before(names[i], later)
      invariant results == AllDiskResults(w, t, names)
      decreases |left|
    {
      var name := Names.Least(left);
      hide DiskAggregateOf;
      assert At(m, name) == DiskAggregateOf(name, Sights(w), t);
      hide CountsDisks;
      var found := JudgeDisk(w, t, name, m[name], minimum);
      ghost var more := names + [name];
      assert more[..|names|] == names;
      assert AllDiskResults(w, t, more) == AllDiskResults(w, t, names) + found;
      hide AllDiskResults;
      results, names, left := results + found, more, left - {name};
    }
    forall name ensures name in names <==> DiskCount(Observed, name, Sights(w)) > 0 {
      assert At(m, name) == DiskAggregateOf(name, Sights(w), t);
    }
  }

  /** Counters of the loop over Microsoft Defender. */
  datatype DefenderHits = DefenderHits(samples: nat, impact: nat, cpu: nat, io: nat)

  function DefenderHitsOf(w: Window, t: Thresholds): DefenderHits {
    DefenderHits(Count(DefenderSeen, w), Count(DefenderImpact(t), w), Count(DefenderUsesCpu(t), w),
                 Count(DefenderUsesIo(t), w))
  }

  method SumIo(processes: seq<ProcessSnapshot>) returns (total: real)
    ensures total == TotalIo(processes)
  {
    total := 0.0;
    for i := 0 to |processes|
      invariant total == TotalIo(processes[..i])
    {
      assert processes[..i + 1][..i] == processes[..i];
      total := total + processes[i].IoBytesPerSec();
    }
    assert processes[..|processes|] == processes;
  }

  method CountDefender(w: Window, t: Thresholds) returns (hits: DefenderHits)
    ensures hits == DefenderHitsOf(w, t)
  {
    hits := DefenderHits(0, 0, 0, 0);
    for i := 0 to |w|
      invariant hits == DefenderHitsOf(w[..i], t)
    {
      var s := w[i];
      forall q ensures Count(q, w[..i + 1]) == Count(q, w[..i]) + if Holds(q, s) then 1 else 0 {
        CountStep(q, w, i);
      }
      hide Count, FindByName, TotalIo;
      if !s.processComplete {
        continue;
      }
      var total := SumIo(s.processes);
      var defender := FindByName(s.processes, "msmpeng.exe");
      if defender.Some? {
        var cpuImpact, ioImpact := UsesCpu(defender.value, t), UsesIo(defender.value, total, t);
        hits := DefenderHits(
          hits.samples + 1, hits.impact + (if cpuImpact || ioImpact then 1 else 0),
          hits.cpu + (if cpuImpact then 1 else 0), hits.io + (if ioImpact then 1 else 0));
      }
    }
    assert w[..|w|] == w;
  }

  method JudgeDefender(w: Window, t: Thresholds, complete: nat) returns (results: seq<Result>)
    requires complete == Count(ProcessesComplete, w)
    ensures results == DefenderResults(w, t)
  {
    var hits := CountDefender(w, t);
    hide Count;
    if hits.samples != 0 && complete >= MinimumEvidence(w) {
      var fraction := hits.impact as real / complete as real;
      if fraction >= 0.5 {
        return [Result(DefenderImpactFound,
                       Graded(hits.cpu as real / complete as real >= 0.5 && hits.io as real / complete as real >= 0.5),
                       ConfidenceFor(fraction, complete), "", hits.impact, complete)];
      }
    }
    return [];
  }

  /** Counters of one process in one role. */
  datatype Impact = Impact(name: string, matching: nat, ioSum: real)
  type ImpactMap = map<Who, Impact>

  function InMap(m: ImpactMap, who: Who): Impact { if who in m then m[who] else Impact("", 0, 0.0) }

  function ImpactOf(role: Role, t: Thresholds, who: Who, x: seq<Glimpse>): Impact {
    Impact(LastName(role, t, who, x), Matching(role, t, who, x), if role.Background? then IoTotal(who, x) else 0.0)
  }

  ghost predicate CountsImpacts(m: ImpactMap, role: Role, x: seq<Glimpse>, t: Thresholds) {
    forall who :: InMap(m, who) == ImpactOf(role, t, who, x)
  }

  function AddGlimpse(role: Role, m: ImpactMap, x: Glimpse, t: Thresholds): ImpactMap {
    if Belongs(role, x, t) then
      var a := InMap(m, x.Id());
      m[x.Id() := Impact(x.p.name, a.matching + (if Matches(role, x, t) then 1 else 0),
                         if role.Background? then a.ioSum + x.p.IoBytesPerSec() else 0.0)]
    else m
  }

  lemma ImpactStep(role: Role, t: Thresholds, who: Who, x: seq<Glimpse>, next: Glimpse)
    ensures var a, b := ImpactOf(role, t, who, x), ImpactOf(role, t, who, x + [next]);
            if next.Id() == who && Belongs(role, next, t) then
              b == Impact(next.p.name, a.matching + (if Matches(role, next, t) then 1 else 0),
                          if role.Background? then a.ioSum + next.p.IoBytesPerSec() else 0.0)
            else b == a
  {
    assert (x + [next])[..|x|] == x;
    hide Qualifies, IsMemoryPressure;
  }

  lemma GlimpseAdds(role: Role, m: ImpactMap, x: seq<Glimpse>, next: Glimpse, t: Thresholds)
    requires CountsImpacts(m, role, x, t)
    ensures CountsImpacts(AddGlimpse(role, m, next, t), role, x + [next], t)
  {
    hide ImpactOf, Belongs, Matches;
    forall who ensures InMap(AddGlimpse(role, m, next, t), who) == ImpactOf(role, t, who, x + [next]) {
      ImpactStep(role, t, who, x, next);
      assert InMap(m, who) == ImpactOf(role, t, who, x);
    }
  }

  lemma GlimpsesStep(w: Window, i: nat)
    requires i < |w|
    ensures Glimpses(w[..i + 1]) == Glimpses(w[..i]) + GlimpsesIn(w[i], w[i].processes)
  {
    assert w[..i + 1][..i] == w[..i];
  }

  /** The inner loop, over the processes of one sample; an incomplete inventory belongs to no role. */
  method CountImpactsOf(
      s: SystemSnapshot, t: Thresholds, background: ImpactMap, foreground: ImpactMap, ghost x: seq<Glimpse>)
    returns (b: ImpactMap, f: ImpactMap)
    requires CountsImpacts(background, Background, x, t) && CountsImpacts(foreground, Foreground, x, t)
    ensures CountsImpacts(b, Background, x + GlimpsesIn(s, s.processes), t)
    ensures CountsImpacts(f, Foreground, x + GlimpsesIn(s, s.processes), t)
  {
    b, f := background, foreground;
    assert x + GlimpsesIn(s, s.processes[..0]) == x;
    for j := 0 to |s.processes|
      invariant CountsImpacts(b, Background, x + GlimpsesIn(s, s.processes[..j]), t)
      invariant CountsImpacts(f, Foreground, x + GlimpsesIn(s, s.processes[..j]), t)
    {
      var next := Glimpse(s, s.processes[j]);
      ghost var y := x + GlimpsesIn(s, s.processes[..j]);
      assert x + GlimpsesIn(s, s.processes[..j + 1]) == y + [next];
      hide CountsImpacts, AddGlimpse, GlimpsesIn;
      GlimpseAdds(Background, b, y, next, t);
      GlimpseAdds(Foreground, f, y, next, t);
      b, f := AddGlimpse(Background, b, next, t), AddGlimpse(Foreground, f, next, t);
    }
    assert s.processes[..|s.processes|] == s.processes;
  }

  method CountImpacts(w: Window, t: Thresholds) returns (b: ImpactMap, f: ImpactMap)
    ensures CountsImpacts(b, Background, Glimpses(w), t) && CountsImpacts(f, Foreground, Glimpses(w), t)
  {
    b, f := map[], map[];
    for i := 0 to |w|
      invariant CountsImpacts(b, Background, Glimpses(w[..i]), t)
      invariant CountsImpacts(f, Foreground, Glimpses(w[..i]), t)
    {
      GlimpsesStep(w, i);
      hide CountsImpacts, Glimpses, GlimpsesIn;
      b, f := CountImpactsOf(w[i], t, b, f, Glimpses(w[..i]));
    }
    assert w[..|w|] == w;
  }

  /** What the comparison looks at. */
  function WeightOf(role: Role, a: Impact, samples: nat): real {
    match role
    case Background => if samples == 0 then 0.0 else a.ioSum / samples as real
    case Foreground => a.matching as real
  }

  lemma CountsMeanWeights(role: Role, m: ImpactMap, w: Window, t: Thresholds, who: Who)
    requires CountsImpacts(m, role, Glimpses(w), t)
    ensures Weight(role, w, t, who) == WeightOf(role, InMap(m, who), Samples(role, w))
    ensures Sustained(role, w, t, who)
            <==> Samples(role, w) >= MinimumEvidence(w) && MostOf(InMap(m, who).matching, Samples(role, w))
    ensures Sustained(role, w, t, who) ==> who in m
  {
    hide LastName, Glimpses, Count;
    assert InMap(m, who) == ImpactOf(role, t, who, Glimpses(w));
  }

  lemma EarlierIsTotal(a: Who, b: Who)
    ensures a == b || Earlier(a, b) || Earlier(b, a)
  {
  }

  /** The first key of a map of processes. */
  method First(whos: set<Who>) returns (first: Who)
    requires whos != {}
    ensures first in whos && forall who | who in whos && who != first :: Earlier(first, who)
  {
    var rest := whos;
    first :| first in whos;
    rest := rest - {first};
    while rest != {}
      invariant rest <= whos && first in whos - rest
      invariant forall who | who in whos - rest && who != first :: Earlier(first, who)
      decreases |rest|
    {
      var who :| who in rest;
      EarlierIsTotal(who, first);
      if Earlier(who, first) {
        forall other | other in whos - rest && other != who ensures Earlier(who, other) {
          assert other == first || Earlier(first, other);
        }
        first := who;
      }
      rest := rest - {who};
    }
  }

  /** The best of the processes that were seen so far. */
  ghost predicate BestSoFar(role: Role, w: Window, t: Thresholds, seen: set<Who>, choice: Option<Who>) {
    match choice
    case None => forall who | who in seen :: !Sustained(role, w, t, who)
    case Some(top) =>
      && top in seen && Sustained(role, w, t, top)
      && forall who | who in seen && Sustained(role, w, t, who) && who != top :: Beats(role, w, t, top, who)
  }

  lemma BestOn(role: Role, w: Window, t: Thresholds, seen: set<Who>, choice: Option<Who>, who: Who)
    requires BestSoFar(role, w, t, seen, choice) && who !in seen
    requires forall earlier | earlier in seen :: Earlier(earlier, who)
    ensures if Sustained(role, w, t, who)
               && (choice.None? || Weight(role, w, t, who) > Weight(role, w, t, choice.value))
            then BestSoFar(role, w, t, seen + {who}, Some(who))
            else BestSoFar(role, w, t, seen + {who}, choice)
  {
    hide Sustained, Weight;
  }

  /** The loop that looks for the heaviest process in a role; the map is walked in the order of its keys. */
  method FindHeaviest(role: Role, m: ImpactMap, w: Window, t: Thresholds) returns (choice: Option<Who>)
    requires CountsImpacts(m, role, Glimpses(w), t)
    ensures IsHeaviest(role, w, t, choice)
  {
    choice := None;
    var samples, minimum := Samples(role, w), MinimumEvidence(w);
    forall who
      ensures Weight(role, w, t, who) == WeightOf(role, InMap(m, who), samples)
      ensures Sustained(role, w, t, who) <==> samples >= minimum && MostOf(InMap(m, who).matching, samples)
      ensures Sustained(role, w, t, who) ==> who in m
    {
      CountsMeanWeights(role, m, w, t, who);
    }
    hide CountsImpacts, Weight, WeightOf, Sustained, MostOf, MinimumEvidence, Samples, Beats;
    var left := m.Keys;
    while left != {}
      invariant left <= m.Keys && BestSoFar(role, w, t, m.Keys - left, choice)
      invariant forall who, later | who in m.Keys - left && later in left :: Earlier(who, later)
      decreases |left|
    {
      var who := First(left);
      BestOn(role, w, t, m.Keys - left, choice, who);
      assert m.Keys - (left - {who}) == m.Keys - left + {who};
      if samples >= minimum && MostOf(m[who].matching, samples)
         && (choice.None? || WeightOf(role, m[who], samples) > WeightOf(role, m[choice.value], samples)) {
        choice := Some(who);
      }
      left := left - {who};
    }
    assert m.Keys - left == m.Keys;
  }

  // ----- The engine -----

  /** The results in the order they are found. */
  function Found(
      w: Window, t: Thresholds, names: seq<string>, background: Option<Who>, foreground: Option<Who>): seq<Result>
    requires w != []
  {
    MemoryResults(w, t) + PagingResults(w, t) + AllDiskResults(w, t, names) + CpuResults(w, t) + DefenderResults(w, t)
    + ImpactResults(Background, w, t, background) + ImpactResults(Foreground, w, t, foreground)
  }

  /** DiagnosisEngine::Evaluate. Every result rests on direct counts over the window. */
  method Evaluate(w: Window, t: Thresholds)
    returns (
      results: seq<Result>, ghost names: seq<string>, ghost background: Option<Who>, ghost foreground: Option<Who>)
    ensures |w| < 2 ==> results == []
    ensures |w| >= 2 ==>
              && ListsDisks(names, w) && IsHeaviest(Background, w, t, background)
              && IsHeaviest(Foreground, w, t, foreground)
              && results == Reported(w, t, names, background, foreground)
  {
    names, background, foreground := [], None, None;
    if |w| < 2 {
      return [], [], None, None;
    }
    var machine := CountMachine(w, t);
    results := JudgeMachine(w, t, machine);
    var disks := CountDisks(w, t);
    var diskResults;
    diskResults, names := JudgeDisks(w, t, disks);
    var cpu := JudgeCpu(w, t, machine);
    var defender := JudgeDefender(w, t, Count(ProcessesComplete, w));
    var b, f := CountImpacts(w, t);
    var top := FindHeaviest(Background, b, w, t);
    var front := FindHeaviest(Foreground, f, w, t);
    background, foreground := top, front;
    hide *;
    results := results + diskResults + cpu + defender + ImpactResults(Background, w, t, top)
               + ImpactResults(Foreground, w, t, front);
    FoundInOrder(w, t, names, top, front);
    return StableSort(results), names, top, front;
  }

  lemma FoundInOrder(
      w: Window, t: Thresholds, names: seq<string>, background: Option<Who>, foreground: Option<Who>)
    requires w != []
    ensures Found(w, t, names, background, foreground)
            == MemoryResults(w, t) + PagingResults(w, t) + AllDiskResults(w, t, names) + CpuResults(w, t)
               + DefenderResults(w, t) + ImpactResults(Background, w, t, background)
               + ImpactResults(Foreground, w, t, foreground)
  {
  }

  method JudgeMachine(w: Window, t: Thresholds, m: Machine) returns (results: seq<Result>)
    requires w != [] && CountsMachine(m, w, t)
    ensures results == MemoryResults(w, t) + PagingResults(w, t)
  {
    hide Count, Sum;
    results := [];
    var n := |w| as real;
    var memoryFraction := m.memory as real / n;
    if memoryFraction >= 0.5 {
      results := results + [
        Result(MemoryPressureFound, PressureSeverity(m.availableMb / n, m.commitRatio / n, t),
               ConfidenceFor(memoryFraction, |w|), "", m.memory, |w|)];
    }
    var pagingFraction := m.paging as real / n;
    if pagingFraction >= 0.5 {
      results := results + [
        Result(PagingPressureFound, Graded(m.pageReads / n >= t.pageReads * 3.0), ConfidenceFor(pagingFraction, |w|),
               "", m.paging, |w|)];
    }
  }

  method JudgeCpu(w: Window, t: Thresholds, m: Machine) returns (results: seq<Result>)
    requires w != [] && CountsMachine(m, w, t)
    ensures results == CpuResults(w, t)
  {
    hide Count, Sum;
    var n := |w| as real;
    var fraction := m.cpuHits as real / n;
    return if fraction >= 0.5 then
        [Result(CpuSaturation, Graded(m.cpu / n >= 97.0), ConfidenceFor(fraction, |w|), "", m.cpuHits, |w|)]
      else [];
  }

  // ----- What the results imply -----

  /** What Evaluate returns for a window of at least two samples. */
  function Reported(
      w: Window, t: Thresholds, names: seq<string>, background: Option<Who>, foreground: Option<Who>): seq<Result>
    requires w != []
  {
    StableSort(Found(w, t, names, background, foreground))
  }

  lemma ReportedWasFound(
      w: Window, t: Thresholds, names: seq<string>, background: Option<Who>, foreground: Option<Who>, r: Result)
    requires w != []
    ensures r in Reported(w, t, names, background, foreground) <==>
              || r in MemoryResults(w, t) || r in PagingResults(w, t) || r in AllDiskResults(w, t, names)
              || r in CpuResults(w, t) || r in DefenderResults(w, t)
              || r in ImpactResults(Background, w, t, background) || r in ImpactResults(Foreground, w, t, foreground)
  {
    hide MemoryResults, PagingResults, AllDiskResults, CpuResults, DefenderResults, ImpactResults, StableSort;
    var found := Found(w, t, names, background, foreground);
    SplitBySeverity(found);
    assert r in StableSort(found) <==> r in multiset(StableSort(found));
    assert r in found <==> r in multiset(found);
  }

  /** A result about a disk comes from one of the disks listed. */
  lemma {:induction false} FoundOnDisk(w: Window, t: Thresholds, names: seq<string>, r: Result)
    ensures r in AllDiskResults(w, t, names) <==> exists name | name in names :: r in DiskResults(w, t, name)
  {
    hide DiskResults;
    if names != [] {
      var last := names[|names| - 1];
      FoundOnDisk(w, t, names[..|names| - 1], r);
      assert names == names[..|names| - 1] + [last];
    }
  }

  lemma KindsOfParts(
      w: Window, t: Thresholds, names: seq<string>, background: Option<Who>, foreground: Option<Who>, r: Result)
    requires w != []
    ensures r in MemoryResults(w, t) ==> r.kind == MemoryPressureFound
    ensures r in PagingResults(w, t) ==> r.kind == PagingPressureFound
    ensures r in CpuResults(w, t) ==> r.kind == CpuSaturation
    ensures r in DefenderResults(w, t) ==> r.kind == DefenderImpactFound
    ensures r in ImpactResults(Background, w, t, background) ==> r.kind == BackgroundIoImpact
    ensures r in ImpactResults(Foreground, w, t, foreground) ==> r.kind == ForegroundAppMemoryPressure
    ensures r in AllDiskResults(w, t, names) ==> r.kind in {DiskBottleneck, HddPagingBottleneck, SsdSpacePressure}
  {
    hide Count, Sum, DiskCount, LatencySum, LastFree, Sights, Glimpses, Fraction, ConfidenceFor, MostOf, Graded, Min,
         MinimumEvidence, WindowPressure, MeanOf, Weight, Samples, Matching, LastName, AllDiskResults;
    FoundOnDisk(w, t, names, r);
  }

  /** Whenever paging pressure is reported, so is memory pressure, on no fewer samples. */
  lemma PagingImpliesMemory(
      w: Window, t: Thresholds, names: seq<string>, background: Option<Who>, foreground: Option<Who>, r: Result)
    requires w != []
    requires r in Reported(w, t, names, background, foreground) && r.kind == PagingPressureFound
    ensures exists q | q in Reported(w, t, names, background, foreground) ::
              q.kind == MemoryPressureFound && q.matching >= r.matching && q.samples == r.samples
  {
    hide Reported, DiskResults, AllDiskResults, DefenderResults, CpuResults, ImpactResults, Count, Sum;
    ReportedWasFound(w, t, names, background, foreground, r);
    KindsOfParts(w, t, names, background, foreground, r);
    PagingNeedsMemory(w, t);
    var q := MemoryResults(w, t)[0];
    ReportedWasFound(w, t, names, background, foreground, q);
  }

  /** Whenever slow paging on a hard disk is reported, so is that disk as a bottleneck, on no fewer samples. */
  lemma HddPagingImpliesBottleneck(
      w: Window, t: Thresholds, names: seq<string>, background: Option<Who>, foreground: Option<Who>, r: Result)
    requires w != []
    requires r in Reported(w, t, names, background, foreground) && r.kind == HddPagingBottleneck
    ensures exists q | q in Reported(w, t, names, background, foreground) ::
              q.kind == DiskBottleneck && q.subject == r.subject && q.matching >= r.matching && q.samples == r.samples
  {
    hide Reported, DiskResults, AllDiskResults, DefenderResults, CpuResults, ImpactResults, MemoryResults,
         PagingResults;
    ReportedWasFound(w, t, names, background, foreground, r);
    KindsOfParts(w, t, names, background, foreground, r);
    FoundOnDisk(w, t, names, r);
    var name :| name in names && r in DiskResults(w, t, name);
    HddPagingNeedsBottleneck(w, t, name, r);
    var q :| q in DiskResults(w, t, name)
             && q.kind == DiskBottleneck && q.subject == r.subject && q.matching >= r.matching
             && q.samples == r.samples;
    FoundOnDisk(w, t, names, q);
    ReportedWasFound(w, t, names, background, foreground, q);
  }

  lemma MachineResultsHaveEvidence(w: Window, t: Thresholds, r: Result)
    requires |w| >= 2
    requires r in MemoryResults(w, t) || r in PagingResults(w, t) || r in CpuResults(w, t) || r in DefenderResults(w, t)
    ensures HasEvidence(w, r)
  {
    assert |w| >= MinimumEvidence(w);
    hide Count, Sum, Fraction, ConfidenceFor, MostOf, Graded, MinimumEvidence, WindowPressure, MeanOf;
  }

  lemma ImpactResultsHaveEvidence(role: Role, w: Window, t: Thresholds, choice: Option<Who>, r: Result)
    requires w != [] && IsHeaviest(role, w, t, choice) && r in ImpactResults(role, w, t, choice)
    ensures HasEvidence(w, r)
  {
    hide Count, Fraction, ConfidenceFor, MostOf, Graded, MinimumEvidence, WindowPressure, Weight, Samples, Matching,
         LastName, Glimpses, Beats;
  }

  /**
   * Whatever is reported was seen in at least two samples and half of the window, and in at least half of those; so no
   * result is of low confidence.
   */
  lemma EveryResultHasEvidence(
      w: Window, t: Thresholds, names: seq<string>, background: Option<Who>, foreground: Option<Who>, r: Result)
    requires |w| >= 2 && IsHeaviest(Background, w, t, background) && IsHeaviest(Foreground, w, t, foreground)
    requires r in Reported(w, t, names, background, foreground)
    ensures r.samples >= 2 && 2 * r.samples >= |w| && 2 * r.matching >= r.samples && r.confidence != Confidence.Low
  {
    hide Reported, DiskResults, AllDiskResults, DefenderResults, CpuResults, ImpactResults, MemoryResults,
         PagingResults, IsHeaviest, HasEvidence;
    ReportedWasFound(w, t, names, background, foreground, r);
    if r in AllDiskResults(w, t, names) {
      FoundOnDisk(w, t, names, r);
      var name :| name in names && r in DiskResults(w, t, name);
      DiskResultsHaveEvidence(w, t, name);
    } else if r in ImpactResults(Background, w, t, background) {
      ImpactResultsHaveEvidence(Background, w, t, background, r);
    } else if r in ImpactResults(Foreground, w, t, foreground) {
      ImpactResultsHaveEvidence(Foreground, w, t, foreground, r);
    } else {
      MachineResultsHaveEvidence(w, t, r);
    }
    EvidenceMeans(w, r);
  }
}
