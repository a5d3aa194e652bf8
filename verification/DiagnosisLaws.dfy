/** What a diagnosis must say of a window, in terms of the sets of samples that match. */
module DiagnosisLaws {
  import opened Types
  import opened Windows
  import opened Diagnosis

  // ----- Shares -----

  /** At least two samples, and half of the window. */
  predicate Enough(samples: nat, w: Window) { samples >= 2 && 2 * samples >= |w| }

  predicate Half(part: nat, whole: nat) { 2 * part >= whole }

  lemma EnoughEvidence(samples: nat, w: Window)
    ensures Enough(samples, w) <==> samples >= MinimumEvidence(w)
  {
  }

  /** Sure of three quarters of five samples or more. */
  function Sureness(matching: nat, samples: nat): Confidence {
    if samples >= 5 && 4 * matching >= 3 * samples then Confidence.High else Confidence.Medium
  }

  lemma QuartersCounted(matching: nat, samples: nat)
    requires samples > 0
    ensures Fraction(matching, samples) >= 0.75 <==> 4 * matching >= 3 * samples
  {
    ShareReaches(matching as real, samples as real, 0.75);
  }

  lemma ShareReaches(part: real, whole: real, limit: real)
    requires whole > 0.0
    ensures part / whole >= limit <==> part >= limit * whole
  {
    var share := part / whole;
    assert share * whole == part;
    ProductGrows(limit, share, whole);
    ProductGrows(share, limit, whole);
  }

  lemma ConfidenceIsSureness(matching: nat, samples: nat)
    requires samples >= 2 && Half(matching, samples)
    ensures ConfidenceFor(Fraction(matching, samples), samples) == Sureness(matching, samples)
  {
    QuartersCounted(matching, samples);
    MostMeansHalf(matching, samples);
  }

  function Mean(q: Quantity, w: Window): real
    requires w != []
  {
    Sum(q, w) / |w| as real
  }

  // ----- What is due -----

  /** `r` says what `matching` of `samples` show, with a severity that is high exactly if `high`. */
  predicate Says(r: Result, matching: nat, samples: nat, high: bool) {
    && r.matching == matching && r.samples == samples && Half(matching, samples)
    && (r.severity == if high then Severity.High else Severity.Medium)
    && r.confidence == Sureness(matching, samples)
  }

  /** Available memory below half of the limit, and commitment of at least nine tenths and of the warning. */
  predicate Severe(w: Window, t: Thresholds)
    requires w != []
  {
    && Mean(AvailableMemory, w) / MIB < t.availableMemoryMb * 0.5
    && Mean(CommitRatio, w) >= 0.9 && Mean(CommitRatio, w) >= t.commitWarning
  }

  predicate DueForMachine(w: Window, t: Thresholds, r: Result)
    requires w != []
  {
    && r.subject == ""
    && match r.kind
       case MemoryPressureFound => Says(r, |Places(MemoryPressure(t), w)|, |w|, Severe(w, t))
       case PagingPressureFound => Says(r, |Places(PagingPressure(t), w)|, |w|, Mean(PageReads, w) >= t.pageReads * 3.0)
       case CpuSaturation => Says(r, |Places(CpuSaturated(t), w)|, |w|, Mean(Cpu, w) >= 97.0)
       case DefenderImpactFound =>
         var complete := |Places(ProcessesComplete, w)|;
         && Places(DefenderSeen, w) != {} && Enough(complete, w)
         && Says(r, |Places(DefenderImpact(t), w)|, complete,
                 && Half(|Places(DefenderUsesCpu(t), w)|, complete)
                 && Half(|Places(DefenderUsesIo(t), w)|, complete))
       case _ => false
  }

  predicate DueForDisk(w: Window, t: Thresholds, r: Result) {
    var x, name := Sights(w), r.subject;
    var seen := |DiskPlaces(Observed, name, x)|;
    && Enough(seen, w)
    && match r.kind
       case DiskBottleneck =>
         Says(r, |DiskPlaces(Bottleneck(t), name, x)|, seen, LatencySum(name, x) / seen as real >= t.hddLatencyMs * 2.0)
       case HddPagingBottleneck => Says(r, |DiskPlaces(HddPaging(t), name, x)|, seen, true)
       case SsdSpacePressure =>
         var known := |DiskPlaces(SpaceKnown, name, x)|;
         && Enough(known, w)
         && Says(r, |DiskPlaces(LowSpace(t), name, x)|, known,
                 LastFree(name, x) <= 0.02 && LastFree(name, x) <= t.ssdFreeSpaceRatio * 0.25)
       case _ => false
  }

  /** The places of the glimpses of this process in which it matches its role. */
  function Activity(role: Role, t: Thresholds, who: Who, glimpses: seq<Glimpse>): set<int> {
    set i | 0 <= i < |glimpses| && glimpses[i].Id() == who && Matches(role, glimpses[i], t)
  }

  lemma ActivityGrows(role: Role, t: Thresholds, who: Who, glimpses: seq<Glimpse>)
    requires glimpses != []
    ensures var n := |glimpses| - 1;
            && n !in Activity(role, t, who, glimpses[..n])
            && Activity(role, t, who, glimpses)
               == Activity(role, t, who, glimpses[..n])
                  + if glimpses[n].Id() == who && Matches(role, glimpses[n], t) then {n} else {}
  {
    hide Matches;
  }

  /** Counting is taking the size of the set of matching glimpses. */
  lemma {:induction false} MatchingIsCardinality(role: Role, t: Thresholds, who: Who, glimpses: seq<Glimpse>)
    ensures Matching(role, t, who, glimpses) == |Activity(role, t, who, glimpses)|
  {
    if glimpses == [] {
      assert Activity(role, t, who, glimpses) == {};
    } else {
      hide Activity, Matches;
      MatchingIsCardinality(role, t, who, glimpses[..|glimpses| - 1]);
      ActivityGrows(role, t, who, glimpses);
    }
  }

  /** The samples that can tell about a role. */
  function Telling(role: Role, w: Window): set<int> {
    match role
    case Background => set i | 0 <= i < |w| && w[i].processComplete && w[i].tcpComplete
    case Foreground => set i | 0 <= i < |w| && w[i].processComplete
  }

  lemma TellingCounted(role: Role, w: Window)
    ensures Samples(role, w) == |Telling(role, w)|
  {
    var q := match role case Background => ProtectionComplete case Foreground => ProcessesComplete;
    CountIsCardinality(q, w);
    assert Places(q, w) == Telling(role, w);
  }

  /** Active in its role in half of the samples that can tell. */
  predicate Persists(role: Role, w: Window, t: Thresholds, who: Who) {
    var samples := |Telling(role, w)|;
    Enough(samples, w) && Half(|Activity(role, t, who, Glimpses(w))|, samples)
  }

  lemma SustainedPersists(role: Role, w: Window, t: Thresholds, who: Who)
    ensures Sustained(role, w, t, who) <==> Persists(role, w, t, who)
  {
    hide Activity, Telling, Matching, Samples, MostOf, MinimumEvidence, Glimpses;
    TellingCounted(role, w);
    MatchingIsCardinality(role, t, who, Glimpses(w));
    EnoughEvidence(Samples(role, w), w);
    if Enough(Samples(role, w), w) {
      MostMeansHalf(Matching(role, t, who, Glimpses(w)), Samples(role, w));
    }
  }

  /** What processes of a role are compared by: mean I/O, or the number of samples under pressure. */
  function Load(role: Role, w: Window, t: Thresholds, who: Who): real {
    match role
    case Background =>
      var samples := |Telling(role, w)|;
      if samples == 0 then 0.0 else IoTotal(who, Glimpses(w)) / samples as real
    case Foreground => |Activity(role, t, who, Glimpses(w))| as real
  }

  lemma WeightIsLoad(role: Role, w: Window, t: Thresholds, who: Who)
    ensures Weight(role, w, t, who) == Load(role, w, t, who)
  {
    hide Activity, Telling, Matching, Samples, Glimpses, IoTotal;
    TellingCounted(role, w);
    MatchingIsCardinality(role, t, who, Glimpses(w));
  }

  /** Of the processes that persist in the role the one with the largest load; the first of those in key order. */
  ghost predicate Leads(role: Role, w: Window, t: Thresholds, who: Who) {
    && Persists(role, w, t, who)
    && forall other | Persists(role, w, t, other) && other != who ::
         Load(role, w, t, other) < Load(role, w, t, who)
         || (Load(role, w, t, other) == Load(role, w, t, who) && Earlier(who, other))
  }

  /** The name `who` had when last seen in the role. */
  ghost predicate LastCalled(role: Role, w: Window, t: Thresholds, who: Who, name: string) {
    var x := Glimpses(w);
    exists k | 0 <= k < |x| ::
      && x[k].Id() == who && Belongs(role, x[k], t) && x[k].p.name == name
      && forall j | k < j < |x| :: !(x[j].Id() == who && Belongs(role, x[j], t))
  }

  ghost predicate DueFor(role: Role, w: Window, t: Thresholds, who: Who, r: Result)
    requires w != []
  {
    && Leads(role, w, t, who) && LastCalled(role, w, t, who, r.subject)
    && Says(r, |Activity(role, t, who, Glimpses(w))|, |Telling(role, w)|,
            match role
            case Background => Load(role, w, t, who) >= t.backgroundIo * 3.0
            case Foreground => Severe(w, t))
  }

  ghost predicate DueForProcess(w: Window, t: Thresholds, r: Result)
    requires w != []
  {
    match r.kind
    case BackgroundIoImpact => exists who :: DueFor(Background, w, t, who, r)
    case ForegroundAppMemoryPressure => exists who :: DueFor(Foreground, w, t, who, r)
    case _ => false
  }

  ghost predicate Due(w: Window, t: Thresholds, r: Result)
    requires w != []
  {
    DueForMachine(w, t, r) || DueForDisk(w, t, r) || DueForProcess(w, t, r)
  }

  // ----- Every part -----

  lemma OneSays(matching: nat, samples: nat, kind: Kind, severity: Severity, subject: string, high: bool, r: Result)
    requires samples >= 2 && severity == Graded(high)
    ensures r in OneIf(MostOf(matching, samples),
                       Result(kind, severity, ConfidenceFor(Fraction(matching, samples), samples), subject, matching,
                              samples))
            <==> r.kind == kind && r.subject == subject && Says(r, matching, samples, high)
  {
    hide Fraction, ConfidenceFor, Sureness, MostOf;
    MostMeansHalf(matching, samples);
    if Half(matching, samples) { ConfidenceIsSureness(matching, samples); }
  }

  lemma PressureIsSevere(w: Window, t: Thresholds)
    requires w != []
    ensures WindowPressure(w, t) == Graded(Severe(w, t))
  {
    hide Sum;
  }

  lemma MemoryDue(w: Window, t: Thresholds, r: Result)
    requires |w| >= 2
    ensures r in MemoryResults(w, t) <==> r.kind == MemoryPressureFound && DueForMachine(w, t, r)
  {
    hide Count, Places, WindowPressure, Severe, MostOf, Fraction, ConfidenceFor, Says, OneIf;
    CountIsCardinality(MemoryPressure(t), w);
    PressureIsSevere(w, t);
    OneSays(Count(MemoryPressure(t), w), |w|, MemoryPressureFound, WindowPressure(w, t), "", Severe(w, t), r);
  }

  lemma PagingDue(w: Window, t: Thresholds, r: Result)
    requires |w| >= 2
    ensures r in PagingResults(w, t) <==> r.kind == PagingPressureFound && DueForMachine(w, t, r)
  {
    hide Count, Places, MostOf, Fraction, ConfidenceFor, Says, OneIf, Sum, Graded;
    CountIsCardinality(PagingPressure(t), w);
    var high := Mean(PageReads, w) >= t.pageReads * 3.0;
    OneSays(Count(PagingPressure(t), w), |w|, PagingPressureFound, Graded(high), "", high, r);
  }

  lemma CpuDue(w: Window, t: Thresholds, r: Result)
    requires |w| >= 2
    ensures r in CpuResults(w, t) <==> r.kind == CpuSaturation && DueForMachine(w, t, r)
  {
    hide Count, Places, MostOf, Fraction, ConfidenceFor, Says, OneIf, Sum, Graded;
    CountIsCardinality(CpuSaturated(t), w);
    var high := Mean(Cpu, w) >= 97.0;
    OneSays(Count(CpuSaturated(t), w), |w|, CpuSaturation, Graded(high), "", high, r);
  }

  lemma DefenderDue(w: Window, t: Thresholds, r: Result)
    requires |w| >= 2
    ensures r in DefenderResults(w, t) <==> r.kind == DefenderImpactFound && DueForMachine(w, t, r)
  {
    hide Count, Places, MostOf, Fraction, ConfidenceFor, Says, Graded, MinimumEvidence;
    CountIsCardinality(DefenderSeen, w);
    CountIsCardinality(ProcessesComplete, w);
    CountIsCardinality(DefenderImpact(t), w);
    CountIsCardinality(DefenderUsesCpu(t), w);
    CountIsCardinality(DefenderUsesIo(t), w);
    var complete := Count(ProcessesComplete, w);
    EnoughEvidence(complete, w);
    if Enough(complete, w) {
      MostMeansHalf(Count(DefenderUsesCpu(t), w), complete);
      MostMeansHalf(Count(DefenderUsesIo(t), w), complete);
      var high := Half(Count(DefenderUsesCpu(t), w), complete) && Half(Count(DefenderUsesIo(t), w), complete);
      OneSays(Count(DefenderImpact(t), w), complete, DefenderImpactFound, Graded(high), "", high, r);
    }
  }

  lemma SlowDue(w: Window, t: Thresholds, name: string, r: Result)
    requires Enough(DiskCount(Observed, name, Sights(w)), w)
    ensures r in SlowResult(t, name, Sights(w)) <==>
              r.kind == DiskBottleneck && r.subject == name && DueForDisk(w, t, r)
  {
    hide DiskCount, DiskPlaces, MostOf, Fraction, ConfidenceFor, Says, OneIf, Graded, Sights, LatencySum;
    var x := Sights(w);
    DiskCountIsCardinality(Observed, name, x);
    DiskCountIsCardinality(Bottleneck(t), name, x);
    var seen := DiskCount(Observed, name, x);
    var high := LatencySum(name, x) / seen as real >= t.hddLatencyMs * 2.0;
    OneSays(DiskCount(Bottleneck(t), name, x), seen, DiskBottleneck, Graded(high), name, high, r);
  }

  lemma HddPagingDue(w: Window, t: Thresholds, name: string, r: Result)
    requires Enough(DiskCount(Observed, name, Sights(w)), w)
    ensures r in HddPagingResult(t, name, Sights(w)) <==>
              r.kind == HddPagingBottleneck && r.subject == name && DueForDisk(w, t, r)
  {
    hide DiskCount, DiskPlaces, MostOf, Fraction, ConfidenceFor, Says, OneIf, Sights;
    var x := Sights(w);
    DiskCountIsCardinality(Observed, name, x);
    DiskCountIsCardinality(HddPaging(t), name, x);
    OneSays(DiskCount(HddPaging(t), name, x), DiskCount(Observed, name, x), HddPagingBottleneck, Severity.High, name,
            true, r);
  }

  lemma SpaceDue(w: Window, t: Thresholds, name: string, r: Result)
    requires Enough(DiskCount(Observed, name, Sights(w)), w)
    ensures r in SpaceResult(w, t, name, Sights(w)) <==>
              r.kind == SsdSpacePressure && r.subject == name && DueForDisk(w, t, r)
  {
    hide DiskCount, DiskPlaces, MostOf, Fraction, ConfidenceFor, Says, Graded, Sights, LastFree, MinimumEvidence;
    var x := Sights(w);
    DiskCountIsCardinality(Observed, name, x);
    DiskCountIsCardinality(SpaceKnown, name, x);
    DiskCountIsCardinality(LowSpace(t), name, x);
    var known := DiskCount(SpaceKnown, name, x);
    EnoughEvidence(known, w);
    if Enough(known, w) {
      var high := LastFree(name, x) <= Min(0.02, t.ssdFreeSpaceRatio * 0.25);
      OneSays(DiskCount(LowSpace(t), name, x), known, SsdSpacePressure, Graded(high), name, high, r);
    }
  }

  /** The results about one disk are exactly those due for it. */
  lemma OneDiskDue(w: Window, t: Thresholds, name: string, r: Result)
    ensures r in DiskResults(w, t, name) <==> r.subject == name && DueForDisk(w, t, r)
  {
    hide DiskCount, DiskPlaces, SlowResult, HddPagingResult, SpaceResult, Says, Sights, MinimumEvidence, LatencySum,
         LastFree;
    var seen := DiskCount(Observed, name, Sights(w));
    DiskCountIsCardinality(Observed, name, Sights(w));
    EnoughEvidence(seen, w);
    if Enough(seen, w) {
      SlowDue(w, t, name, r);
      HddPagingDue(w, t, name, r);
      SpaceDue(w, t, name, r);
    }
  }

  lemma DisksDue(w: Window, t: Thresholds, names: seq<string>, r: Result)
    requires ListsDisks(names, w)
    ensures r in AllDiskResults(w, t, names) <==> DueForDisk(w, t, r)
  {
    hide AllDiskResults, DiskResults, DiskCount, Sights, DueForDisk;
    FoundOnDisk(w, t, names, r);
    forall name | name in names ensures r in DiskResults(w, t, name) <==> r.subject == name && DueForDisk(w, t, r) {
      OneDiskDue(w, t, name, r);
    }
    if DueForDisk(w, t, r) {
      DueDiskWasSeen(w, t, r);
    }
  }

  lemma DueDiskWasSeen(w: Window, t: Thresholds, r: Result)
    requires DueForDisk(w, t, r)
    ensures DiskCount(Observed, r.subject, Sights(w)) > 0
  {
    hide DiskCount, DiskPlaces, Sights, Says;
    DiskCountIsCardinality(Observed, r.subject, Sights(w));
  }

  lemma HeaviestLeads(role: Role, w: Window, t: Thresholds, choice: Option<Who>)
    requires IsHeaviest(role, w, t, choice)
    ensures choice.None? ==> forall who :: !Persists(role, w, t, who)
    ensures forall who :: Leads(role, w, t, who) <==> choice == Some(who)
  {
    hide Persists, Sustained, Weight, Load;
    forall who
      ensures Sustained(role, w, t, who) <==> Persists(role, w, t, who)
      ensures Weight(role, w, t, who) == Load(role, w, t, who)
    {
      SustainedPersists(role, w, t, who);
      WeightIsLoad(role, w, t, who);
    }
    forall who ensures Leads(role, w, t, who) <==> choice == Some(who) {
      if choice.Some? && choice.value != who && Persists(role, w, t, who) {
        assert Beats(role, w, t, choice.value, who);
      }
    }
  }

  /** A process that matched its role was last seen in it somewhere, and there it had its last name. */
  lemma {:induction false} LastNameIsLast(role: Role, t: Thresholds, who: Who, x: seq<Glimpse>, k: nat)
    requires k < |x| && x[k].Id() == who && Belongs(role, x[k], t)
    requires forall j | k < j < |x| :: !(x[j].Id() == who && Belongs(role, x[j], t))
    ensures LastName(role, t, who, x) == x[k].p.name
  {
    hide Belongs;
    if k < |x| - 1 {
      LastNameIsLast(role, t, who, x[..|x| - 1], k);
    }
  }

  lemma {:induction false} LastOccurrence(role: Role, t: Thresholds, who: Who, x: seq<Glimpse>) returns (k: nat)
    requires Activity(role, t, who, x) != {}
    ensures k < |x| && x[k].Id() == who && Belongs(role, x[k], t)
    ensures forall j | k < j < |x| :: !(x[j].Id() == who && Belongs(role, x[j], t))
  {
    var i :| i in Activity(role, t, who, x);
    MatchingBelongs(role, t, x[i]);
    hide Matches, Belongs, Activity;
    k := |x| - 1;
    while !(x[k].Id() == who && Belongs(role, x[k], t))
      invariant i <= k < |x|
      invariant forall j | k < j < |x| :: !(x[j].Id() == who && Belongs(role, x[j], t))
      decreases k
    {
      k := k - 1;
    }
  }

  lemma MatchingBelongs(role: Role, t: Thresholds, x: Glimpse)
    requires Matches(role, x, t)
    ensures Belongs(role, x, t)
  {
  }

  lemma NamesAgree(role: Role, w: Window, t: Thresholds, who: Who, name: string)
    requires Activity(role, t, who, Glimpses(w)) != {}
    ensures LastCalled(role, w, t, who, name) <==> name == LastName(role, t, who, Glimpses(w))
  {
    hide Activity, Belongs, LastName, Glimpses;
    var x := Glimpses(w);
    var k := LastOccurrence(role, t, who, x);
    LastNameIsLast(role, t, who, x, k);
    if LastCalled(role, w, t, who, name) {
      var j :| 0 <= j < |x| && x[j].Id() == who && Belongs(role, x[j], t) && x[j].p.name == name
               && forall i | j < i < |x| :: !(x[i].Id() == who && Belongs(role, x[i], t));
      LastNameIsLast(role, t, who, x, j);
    }
  }

  function KindOf(role: Role): Kind {
    match role case Background => BackgroundIoImpact case Foreground => ForegroundAppMemoryPressure
  }

  lemma LeaderDue(role: Role, w: Window, t: Thresholds, who: Who, r: Result)
    requires |w| >= 2 && Leads(role, w, t, who)
    ensures r in ImpactResults(role, w, t, Some(who)) <==> r.kind == KindOf(role) && DueFor(role, w, t, who, r)
  {
    hide Activity, Telling, Matching, Samples, Glimpses, LastName, LastCalled, IoTotal, Fraction, ConfidenceFor,
         WindowPressure, Severe, Sureness, Weight, Load;
    var samples, hits := |Telling(role, w)|, |Activity(role, t, who, Glimpses(w))|;
    TellingCounted(role, w);
    MatchingIsCardinality(role, t, who, Glimpses(w));
    WeightIsLoad(role, w, t, who);
    PressureIsSevere(w, t);
    assert Enough(samples, w) && Half(hits, samples);
    ConfidenceIsSureness(hits, samples);
    NamesAgree(role, w, t, who, r.subject);
  }

  lemma RoleDue(role: Role, w: Window, t: Thresholds, choice: Option<Who>, r: Result)
    requires |w| >= 2 && IsHeaviest(role, w, t, choice)
    ensures r in ImpactResults(role, w, t, choice) <==> r.kind == KindOf(role) && DueForProcess(w, t, r)
  {
    hide Leads, IsHeaviest, DueFor;
    HeaviestLeads(role, w, t, choice);
    forall who | DueFor(role, w, t, who, r) ensures choice == Some(who) {
      DueForLeader(role, w, t, who, r);
    }
    if choice.Some? {
      LeaderDue(role, w, t, choice.value, r);
    }
    hide ImpactResults;
    assert choice.None? ==> ImpactResults(role, w, t, choice) == [] by { NobodyImpacts(role, w, t, choice); }
  }

  lemma DueForLeader(role: Role, w: Window, t: Thresholds, who: Who, r: Result)
    requires w != [] && DueFor(role, w, t, who, r)
    ensures Leads(role, w, t, who)
  {
  }

  lemma NobodyImpacts(role: Role, w: Window, t: Thresholds, choice: Option<Who>)
    requires w != []
    ensures choice.None? ==> ImpactResults(role, w, t, choice) == []
  {
  }

  // ----- The whole diagnosis -----

  /** What is reported is exactly what is due. */
  lemma ReportedIsDue(
      w: Window, t: Thresholds, names: seq<string>, background: Option<Who>, foreground: Option<Who>, r: Result)
    requires |w| >= 2 && ListsDisks(names, w)
    requires IsHeaviest(Background, w, t, background) && IsHeaviest(Foreground, w, t, foreground)
    ensures r in Reported(w, t, names, background, foreground) <==> Due(w, t, r)
  {
    hide Reported, MemoryResults, PagingResults, CpuResults, DefenderResults, AllDiskResults, ImpactResults, IsHeaviest,
         ListsDisks, DueForMachine, DueForDisk, DueForProcess;
    ReportedWasFound(w, t, names, background, foreground, r);
    MemoryDue(w, t, r);
    PagingDue(w, t, r);
    CpuDue(w, t, r);
    DefenderDue(w, t, r);
    DisksDue(w, t, names, r);
    RoleDue(Background, w, t, background, r);
    RoleDue(Foreground, w, t, foreground, r);
    KindsDue(w, t, r);
  }

  lemma KindsDue(w: Window, t: Thresholds, r: Result)
    requires w != []
    ensures DueForMachine(w, t, r) ==>
              r.kind in {MemoryPressureFound, PagingPressureFound, CpuSaturation, DefenderImpactFound}
    ensures DueForDisk(w, t, r) ==> r.kind in {DiskBottleneck, HddPagingBottleneck, SsdSpacePressure}
    ensures DueForProcess(w, t, r) ==> r.kind == KindOf(Background) || r.kind == KindOf(Foreground)
  {
    hide Says, Places, DueFor, DiskPlaces;
  }

  // ----- What is found -----

  ghost predicate Finds(results: seq<Result>, kind: Kind, subject: string) {
    exists r | r in results :: r.kind == kind && r.subject == subject
  }

  function Finding(kind: Kind, subject: string, matching: nat, samples: nat, high: bool): Result {
    Result(kind, Graded(high), Sureness(matching, samples), subject, matching, samples)
  }

  /** Saturation, memory and paging pressure are found exactly if half of the samples show them. */
  lemma MachineFindings(w: Window, t: Thresholds, results: seq<Result>)
    requires |w| >= 2 && forall r :: r in results <==> Due(w, t, r)
    ensures Finds(results, CpuSaturation, "") <==> Half(|Places(CpuSaturated(t), w)|, |w|)
    ensures Finds(results, MemoryPressureFound, "") <==> Half(|Places(MemoryPressure(t), w)|, |w|)
    ensures Finds(results, PagingPressureFound, "") <==> Half(|Places(PagingPressure(t), w)|, |w|)
  {
    hide Places, DueForDisk, DueForProcess, Sureness, Sum;
    forall r: Result { KindsDue(w, t, r); }
    if Half(|Places(CpuSaturated(t), w)|, |w|) {
      assert Finding(CpuSaturation, "", |Places(CpuSaturated(t), w)|, |w|, Mean(Cpu, w) >= 97.0) in results;
    }
    if Half(|Places(MemoryPressure(t), w)|, |w|) {
      assert Finding(MemoryPressureFound, "", |Places(MemoryPressure(t), w)|, |w|, Severe(w, t)) in results;
    }
    if Half(|Places(PagingPressure(t), w)|, |w|) {
      assert Finding(PagingPressureFound, "", |Places(PagingPressure(t), w)|, |w|,
                     Mean(PageReads, w) >= t.pageReads * 3.0) in results;
    }
  }

  /** Defender is found exactly if it ran and half of the complete samples show its impact. */
  lemma DefenderFinding(w: Window, t: Thresholds, results: seq<Result>)
    requires |w| >= 2 && forall r :: r in results <==> Due(w, t, r)
    ensures Finds(results, DefenderImpactFound, "") <==>
              && Places(DefenderSeen, w) != {} && Enough(|Places(ProcessesComplete, w)|, w)
              && Half(|Places(DefenderImpact(t), w)|, |Places(ProcessesComplete, w)|)
  {
    hide Places, DueForDisk, DueForProcess, Sureness;
    forall r: Result { KindsDue(w, t, r); }
    var complete := |Places(ProcessesComplete, w)|;
    if Places(DefenderSeen, w) != {} && Enough(complete, w) && Half(|Places(DefenderImpact(t), w)|, complete) {
      assert Finding(DefenderImpactFound, "", |Places(DefenderImpact(t), w)|, complete,
                     && Half(|Places(DefenderUsesCpu(t), w)|, complete)
                     && Half(|Places(DefenderUsesIo(t), w)|, complete)) in results;
    }
  }

  /** A disk is found slow, slowly paging or short of space exactly if half of the samples that can tell show it. */
  lemma DiskFindings(w: Window, t: Thresholds, results: seq<Result>, name: string)
    requires |w| >= 2 && forall r :: r in results <==> Due(w, t, r)
    ensures var x := Sights(w);
            var seen, known := |DiskPlaces(Observed, name, x)|, |DiskPlaces(SpaceKnown, name, x)|;
            && (Finds(results, DiskBottleneck, name) <==>
                  Enough(seen, w) && Half(|DiskPlaces(Bottleneck(t), name, x)|, seen))
            && (Finds(results, HddPagingBottleneck, name) <==>
                  Enough(seen, w) && Half(|DiskPlaces(HddPaging(t), name, x)|, seen))
            && (Finds(results, SsdSpacePressure, name) <==>
                  Enough(seen, w) && Enough(known, w) && Half(|DiskPlaces(LowSpace(t), name, x)|, known))
  {
    hide DiskPlaces, DueForMachine, DueForProcess, Sureness, Sights, LatencySum, LastFree;
    forall r: Result { KindsDue(w, t, r); }
    var x := Sights(w);
    var seen, known := |DiskPlaces(Observed, name, x)|, |DiskPlaces(SpaceKnown, name, x)|;
    if Enough(seen, w) && Half(|DiskPlaces(Bottleneck(t), name, x)|, seen) {
      assert Finding(DiskBottleneck, name, |DiskPlaces(Bottleneck(t), name, x)|, seen,
                     LatencySum(name, x) / seen as real >= t.hddLatencyMs * 2.0) in results;
    }
    if Enough(seen, w) && Half(|DiskPlaces(HddPaging(t), name, x)|, seen) {
      assert Finding(HddPagingBottleneck, name, |DiskPlaces(HddPaging(t), name, x)|, seen, true) in results;
    }
    if Enough(seen, w) && Enough(known, w) && Half(|DiskPlaces(LowSpace(t), name, x)|, known) {
      assert Finding(SsdSpacePressure, name, |DiskPlaces(LowSpace(t), name, x)|, known,
                     LastFree(name, x) <= 0.02 && LastFree(name, x) <= t.ssdFreeSpaceRatio * 0.25) in results;
    }
  }

  /** A process is found in a role exactly if some process persists in it. */
  lemma ProcessFindings(
      role: Role, w: Window, t: Thresholds, names: seq<string>, background: Option<Who>, foreground: Option<Who>)
    requires |w| >= 2 && ListsDisks(names, w)
    requires IsHeaviest(Background, w, t, background) && IsHeaviest(Foreground, w, t, foreground)
    ensures (exists r | r in Reported(w, t, names, background, foreground) :: r.kind == KindOf(role)) <==>
              exists who :: Persists(role, w, t, who)
  {
    hide Reported, ListsDisks, IsHeaviest, DueForMachine, DueForDisk, Persists, ImpactResults;
    var choice := if role.Background? then background else foreground;
    HeaviestLeads(role, w, t, choice);
    if choice.Some? {
      var r := ImpactOfLeader(role, w, t, choice.value);
      ReportedWasFound(w, t, names, background, foreground, r);
    } else {
      forall r | r in Reported(w, t, names, background, foreground) ensures r.kind != KindOf(role) {
        ReportedIsDue(w, t, names, background, foreground, r);
        KindsDue(w, t, r);
      }
    }
  }

  lemma ImpactOfLeader(role: Role, w: Window, t: Thresholds, who: Who) returns (r: Result)
    requires w != []
    ensures r in ImpactResults(role, w, t, Some(who)) && r.kind == KindOf(role)
  {
    r := ImpactResults(role, w, t, Some(who))[0];
  }
}
