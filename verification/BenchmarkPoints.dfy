/** SessionManager::MakeBenchmarkPoint: one pass over a window that must equal the averages it stands for. */
module BenchmarkPoints {
  import opened Types
  import opened JsonText
  import opened SessionModel
  import opened Windows
  import Names

  /** Averages as numbers; `render` turns them into the tokens a session stores. */
  datatype Averages = Averages(
    cpu: real, commitRatio: real, pageReads: real, availableMemory: real, developmentCpu: real,
    developmentWorkingSet: real, active: real, latency: real, queue: real, ssdActive: real, ssdLatency: real,
    hddActive: real, hddLatency: real)

  function Mean(sum: real, n: nat): real {
    if n == 0 then 0.0 else sum / n as real
  }

  /** What each average means. */
  function AveragesOf(w: Window): Averages {
    var n, complete, disks := |w|, Count(ProcessesComplete, w), Count(HasDisk, w);
    var ssds, hdds := Count(HasDiskOf(SSD), w), Count(HasDiskOf(HDD), w);
    Averages(
      Mean(Sum(Cpu, w), n), Mean(Sum(CommitRatio, w), n), Mean(Sum(PageReads, w), n), Mean(Sum(AvailableMemory, w), n),
      Mean(Sum(DevelopmentCpu, w), complete), Mean(Sum(DevelopmentWorkingSet, w), complete),
      Mean(Sum(WorstActive(None), w), disks), Mean(Sum(WorstLatency(None), w), disks),
      Mean(Sum(WorstQueue, w), disks),
      Mean(Sum(WorstActive(Some(SSD)), w), ssds), Mean(Sum(WorstLatency(Some(SSD)), w), ssds),
      Mean(Sum(WorstActive(Some(HDD)), w), hdds), Mean(Sum(WorstLatency(Some(HDD)), w), hdds))
  }

  // ----- Disks -----

  datatype DiskWorst = DiskWorst(
    active: real, latency: real, queue: real, ssdActive: real, ssdLatency: real, hddActive: real, hddLatency: real,
    hasSsd: bool, hasHdd: bool)

  function DiskWorstOf(disks: seq<DiskSnapshot>): DiskWorst {
    DiskWorst(
      Worst(WorstActive(None), disks), Worst(WorstLatency(None), disks), Worst(WorstQueue, disks),
      Worst(WorstActive(Some(SSD)), disks), Worst(WorstLatency(Some(SSD)), disks),
      Worst(WorstActive(Some(HDD)), disks), Worst(WorstLatency(Some(HDD)), disks),
      exists d | d in disks :: d.media == SSD, exists d | d in disks :: d.media == HDD)
  }

  lemma DiskWorstStep(disks: seq<DiskSnapshot>, i: nat)
    requires i < |disks|
    ensures
      var d, o, n := disks[i], DiskWorstOf(disks[..i]), DiskWorstOf(disks[..i + 1]);
      && n.active == Max(o.active, d.activeRatio) && n.latency == Max(o.latency, d.averageLatencyMs)
      && n.queue == Max(o.queue, d.queueLength)
      && n.ssdActive == (if d.media == SSD then Max(o.ssdActive, d.activeRatio) else o.ssdActive)
      && n.ssdLatency == (if d.media == SSD then Max(o.ssdLatency, d.averageLatencyMs) else o.ssdLatency)
      && n.hddActive == (if d.media == HDD then Max(o.hddActive, d.activeRatio) else o.hddActive)
      && n.hddLatency == (if d.media == HDD then Max(o.hddLatency, d.averageLatencyMs) else o.hddLatency)
      && n.hasSsd == (o.hasSsd || d.media == SSD) && n.hasHdd == (o.hasHdd || d.media == HDD)
  {
    assert disks[..i + 1] == disks[..i] + [disks[i]];
    forall q ensures Worst(q, disks[..i + 1]) == Max(Worst(q, disks[..i]), DiskValue(q, disks[i])) {
      WorstStep(q, disks, i);
    }
    forall q ensures Worst(q, disks[..i]) >= 0.0 {
      WorstIsMaximum(q, disks[..i]);
    }
  }

  /** The loop over the disks of one sample. */
  method WorstOfSample(disks: seq<DiskSnapshot>) returns (worst: DiskWorst)
    ensures worst == DiskWorstOf(disks)
  {
    worst := DiskWorst(0.0, 0.0, 0.0, 0.0, 0.0, 0.0, 0.0, false, false);
    for i := 0 to |disks|
      invariant worst == DiskWorstOf(disks[..i])
    {
      DiskWorstStep(disks, i);
      hide DiskWorstOf;
      var d := disks[i];
      worst := worst.(
        active := Max(worst.active, d.activeRatio), latency := Max(worst.latency, d.averageLatencyMs),
        queue := Max(worst.queue, d.queueLength));
      if d.media == SSD {
        worst := worst.(
          hasSsd := true, ssdActive := Max(worst.ssdActive, d.activeRatio),
          ssdLatency := Max(worst.ssdLatency, d.averageLatencyMs));
      } else if d.media == HDD {
        worst := worst.(
          hasHdd := true, hddActive := Max(worst.hddActive, d.activeRatio),
          hddLatency := Max(worst.hddLatency, d.averageLatencyMs));
      }
    }
    assert disks[..|disks|] == disks;
  }

  // ----- Processes -----

  datatype Aggregate = Aggregate(displayName: string, ioSum: real)
  type Background = map<string, Aggregate>

  function IoIn(background: Background, name: string): real {
    if name in background then background[name].ioSum else 0.0
  }

  /** The I/O of one name in the first `i` snapshots and the first `j` processes of the next. */
  function IoSoFar(name: string, w: Window, i: nat, j: nat): real
    requires i < |w| && j <= |w[i].processes|
  {
    Sum(BackgroundIo(name), w[..i])
    + if Holds(ProtectionComplete, w[i]) then ProcessTotal(BackgroundIo(name), w[i].processes[..j]) else 0.0
  }

  predicate Named(background: Background) {
    forall name | name in background :: ToLowerAscii(background[name].displayName) == name
  }

  /** One process is added to the aggregate of its name. */
  method AddProcess(background: Background, p: ProcessSnapshot) returns (next: Background)
    requires Named(background)
    ensures Named(next)
    ensures forall name :: IoIn(next, name) == IoIn(background, name) + ProcessValue(BackgroundIo(name), p)
    ensures next != map[] ==> background != map[] || Qualifies(p)
  {
    if Qualifies(p) {
      var key := ToLowerAscii(p.name);
      next := background[key := Aggregate(p.name, IoIn(background, key) + p.IoBytesPerSec())];
    } else {
      next := background;
    }
  }

  /** The loop over the processes of one complete inventory. */
  method AddProcesses(w: Window, i: nat, background: Background)
    returns (developmentCpu: real, developmentWorkingSet: real, next: Background)
    requires i < |w| && w[i].processComplete && Named(background)
    requires forall name :: IoIn(background, name) == Sum(BackgroundIo(name), w[..i])
    ensures developmentCpu == ProcessTotal(DevelopmentCpu, w[i].processes)
    ensures developmentWorkingSet == ProcessTotal(DevelopmentWorkingSet, w[i].processes)
    ensures Named(next) && forall name :: IoIn(next, name) == Sum(BackgroundIo(name), w[..i + 1])
    ensures next != map[] ==> background != map[] || w[i].tcpComplete
  {
    var processes := w[i].processes;
    developmentCpu, developmentWorkingSet, next := 0.0, 0.0, background;
    assert processes[..0] == [];
    for j := 0 to |processes|
      invariant developmentCpu == ProcessTotal(DevelopmentCpu, processes[..j])
      invariant developmentWorkingSet == ProcessTotal(DevelopmentWorkingSet, processes[..j])
      invariant Named(next) && forall name :: IoIn(next, name) == IoSoFar(name, w, i, j)
      invariant next != map[] ==> background != map[] || w[i].tcpComplete
    {
      var p := processes[j];
      forall q ensures ProcessTotal(q, processes[..j + 1]) == ProcessTotal(q, processes[..j]) + ProcessValue(q, p) {
        ProcessStep(q, processes, j);
      }
      assert ProcessValue(DevelopmentCpu, p) == if p.classification.Development? then p.cpuPercent else 0.0;
      assert ProcessValue(DevelopmentWorkingSet, p)
             == if p.classification.Development? then p.workingSet as real else 0.0;
      hide ProcessTotal, ProcessValue, IoIn, Named;
      if p.classification.Development? {
        developmentCpu := developmentCpu + p.cpuPercent;
        developmentWorkingSet := developmentWorkingSet + p.workingSet as real;
      }
      if w[i].tcpComplete {
        next := AddProcess(next, p);
      }
    }
    assert processes[..|processes|] == processes;
    forall name ensures IoIn(next, name) == Sum(BackgroundIo(name), w[..i + 1]) {
      SumStep(BackgroundIo(name), w, i);
    }
  }

  // ----- The whole window -----

  datatype Totals = Totals(
    cpu: real, available: real, commitRatio: real, pageReads: real, disks: DiskTotals, developmentCpu: real,
    developmentWorkingSet: real, processSamples: nat, tcpSamples: nat, protectionSamples: nat)

  datatype DiskTotals = DiskTotals(
    active: real, latency: real, queue: real, ssdActive: real, ssdLatency: real, hddActive: real, hddLatency: real,
    samples: nat, ssdSamples: nat, hddSamples: nat)

  function DiskTotalsOf(w: Window): DiskTotals {
    DiskTotals(
      Sum(WorstActive(None), w), Sum(WorstLatency(None), w), Sum(WorstQueue, w),
      Sum(WorstActive(Some(SSD)), w), Sum(WorstLatency(Some(SSD)), w),
      Sum(WorstActive(Some(HDD)), w), Sum(WorstLatency(Some(HDD)), w),
      Count(HasDisk, w), Count(HasDiskOf(SSD), w), Count(HasDiskOf(HDD), w))
  }

  function TotalsOf(w: Window): Totals {
    Totals(
      Sum(Cpu, w), Sum(AvailableMemory, w), Sum(CommitRatio, w), Sum(PageReads, w), DiskTotalsOf(w),
      Sum(DevelopmentCpu, w), Sum(DevelopmentWorkingSet, w),
      Count(ProcessesComplete, w), Count(TcpComplete, w), Count(ProtectionComplete, w))
  }

  /** Adds the worst disks of one sample. */
  method AddDisks(w: Window, i: nat, before: DiskTotals) returns (next: DiskTotals)
    requires i < |w| && before == DiskTotalsOf(w[..i])
    ensures next == DiskTotalsOf(w[..i + 1])
  {
    DiskTotalsStep(w, i);
    AbsentMediaAddNothing(w[i].disks);
    hide DiskTotalsOf, DiskWorstOf;
    var s := w[i];
    var worst := WorstOfSample(s.disks);
    next := before;
    if s.disks != [] {
      next := next.(
        active := next.active + worst.active, latency := next.latency + worst.latency,
        queue := next.queue + worst.queue, samples := next.samples + 1);
    }
    if worst.hasSsd {
      next := next.(
        ssdActive := next.ssdActive + worst.ssdActive, ssdLatency := next.ssdLatency + worst.ssdLatency,
        ssdSamples := next.ssdSamples + 1);
    }
    if worst.hasHdd {
      next := next.(
        hddActive := next.hddActive + worst.hddActive, hddLatency := next.hddLatency + worst.hddLatency,
        hddSamples := next.hddSamples + 1);
    }
  }

  lemma DiskTotalsStep(w: Window, i: nat)
    requires i < |w|
    ensures var o, n, x := DiskTotalsOf(w[..i]), DiskTotalsOf(w[..i + 1]), DiskWorstOf(w[i].disks);
            && n.active == o.active + x.active && n.latency == o.latency + x.latency && n.queue == o.queue + x.queue
            && n.ssdActive == o.ssdActive + x.ssdActive && n.ssdLatency == o.ssdLatency + x.ssdLatency
            && n.hddActive == o.hddActive + x.hddActive && n.hddLatency == o.hddLatency + x.hddLatency
            && n.samples == o.samples + (if w[i].disks != [] then 1 else 0)
            && n.ssdSamples == o.ssdSamples + (if x.hasSsd then 1 else 0)
            && n.hddSamples == o.hddSamples + (if x.hasHdd then 1 else 0)
  {
    forall q ensures Sum(q, w[..i + 1]) == Sum(q, w[..i]) + Measure(q, w[i]) {
      SumStep(q, w, i);
    }
    forall q ensures Count(q, w[..i + 1]) == Count(q, w[..i]) + if Holds(q, w[i]) then 1 else 0 {
      CountStep(q, w, i);
    }
    hide Sum, Count, Worst;
  }

  /** Media that a sample does not have add nothing. */
  lemma AbsentMediaAddNothing(disks: seq<DiskSnapshot>)
    ensures var x := DiskWorstOf(disks);
            && (disks == [] ==> x.active == 0.0 && x.latency == 0.0 && x.queue == 0.0)
            && (!x.hasSsd ==> x.ssdActive == 0.0 && x.ssdLatency == 0.0)
            && (!x.hasHdd ==> x.hddActive == 0.0 && x.hddLatency == 0.0)
  {
    if forall d | d in disks :: d.media != SSD { NoDiskNoValue(disks, SSD); }
    if forall d | d in disks :: d.media != HDD { NoDiskNoValue(disks, HDD); }
  }

  lemma {:induction false} NoDiskNoValue(disks: seq<DiskSnapshot>, media: DiskMedia)
    requires forall d | d in disks :: d.media != media
    ensures Worst(WorstActive(Some(media)), disks) == 0.0 && Worst(WorstLatency(Some(media)), disks) == 0.0
  {
    if disks != [] {
      NoDiskNoValue(disks[..|disks| - 1], media);
    }
  }

  lemma TotalsStep(w: Window, i: nat)
    requires i < |w|
    ensures var o, n, s := TotalsOf(w[..i]), TotalsOf(w[..i + 1]), w[i];
            && n.cpu == o.cpu + s.cpuPercent && n.available == o.available + s.memory.available as real
            && n.commitRatio == o.commitRatio + s.memory.CommitRatio() && n.pageReads == o.pageReads + s.pageReads
            && n.developmentCpu == o.developmentCpu
                                   + (if s.processComplete then ProcessTotal(DevelopmentCpu, s.processes) else 0.0)
            && n.developmentWorkingSet
               == o.developmentWorkingSet
                  + (if s.processComplete then ProcessTotal(DevelopmentWorkingSet, s.processes) else 0.0)
            && n.processSamples == o.processSamples + (if s.processComplete then 1 else 0)
            && n.tcpSamples == o.tcpSamples + (if s.tcpComplete then 1 else 0)
            && n.protectionSamples == o.protectionSamples + (if s.processComplete && s.tcpComplete then 1 else 0)
  {
    hide Sum, Count, ProcessTotal, DiskTotalsOf;
    forall q ensures Sum(q, w[..i + 1]) == Sum(q, w[..i]) + Measure(q, w[i]) {
      SumStep(q, w, i);
    }
    forall q ensures Count(q, w[..i + 1]) == Count(q, w[..i]) + if Holds(q, w[i]) then 1 else 0 {
      CountStep(q, w, i);
    }
  }

  /** An incomplete inventory adds no background I/O. */
  lemma IncompleteAddsNoIo(w: Window, i: nat)
    requires i < |w| && !w[i].processComplete
    ensures forall name :: Sum(BackgroundIo(name), w[..i + 1]) == Sum(BackgroundIo(name), w[..i])
  {
    forall name ensures Sum(BackgroundIo(name), w[..i + 1]) == Sum(BackgroundIo(name), w[..i]) {
      SumStep(BackgroundIo(name), w, i);
    }
  }

  /** The background map holds, by lower-case name, the I/O of every name over the window. */
  ghost predicate Collected(background: Background, w: Window) {
    && Named(background) && (background != map[] ==> Count(ProtectionComplete, w) > 0)
    && forall name :: IoIn(background, name) == Sum(BackgroundIo(name), w)
  }

  /** The totals with one more sample in them. */
  function WithSample(before: Totals, s: SystemSnapshot, disks: DiskTotals, cpu: real, workingSet: real): Totals {
    Totals(
      before.cpu + s.cpuPercent, before.available + s.memory.available as real,
      before.commitRatio + s.memory.CommitRatio(), before.pageReads + s.pageReads, disks,
      before.developmentCpu + cpu, before.developmentWorkingSet + workingSet,
      before.processSamples + (if s.processComplete then 1 else 0),
      before.tcpSamples + (if s.tcpComplete then 1 else 0),
      before.protectionSamples + (if s.processComplete && s.tcpComplete then 1 else 0))
  }

  lemma SampleAdds(w: Window, i: nat, cpu: real, workingSet: real)
    requires i < |w|
    requires cpu == if w[i].processComplete then ProcessTotal(DevelopmentCpu, w[i].processes) else 0.0
    requires workingSet == if w[i].processComplete then ProcessTotal(DevelopmentWorkingSet, w[i].processes) else 0.0
    ensures WithSample(TotalsOf(w[..i]), w[i], DiskTotalsOf(w[..i + 1]), cpu, workingSet) == TotalsOf(w[..i + 1])
  {
    TotalsStep(w, i);
    hide DiskTotalsOf, Sum, Count, ProcessTotal;
  }

  /** One turn of the loop over the window. */
  method AddSample(w: Window, i: nat, before: Totals, earlier: Background)
    returns (totals: Totals, background: Background)
    requires i < |w| && before == TotalsOf(w[..i]) && Collected(earlier, w[..i])
    ensures totals == TotalsOf(w[..i + 1]) && Collected(background, w[..i + 1])
  {
    var s := w[i];
    CountStep(ProtectionComplete, w, i);
    hide DiskTotalsOf, Sum, Count, ProcessTotal, IoIn, Named, WithSample;
    var disks := AddDisks(w, i, before.disks);
    var cpu, workingSet := 0.0, 0.0;
    background := earlier;
    hide TotalsOf;
    if s.processComplete {
      cpu, workingSet, background := AddProcesses(w, i, background);
    } else {
      IncompleteAddsNoIo(w, i);
    }
    SampleAdds(w, i, cpu, workingSet);
    totals := WithSample(before, s, disks, cpu, workingSet);
  }

  /** The loop over the window. */
  method Accumulate(w: Window) returns (totals: Totals, background: Background)
    ensures totals == TotalsOf(w) && Collected(background, w)
  {
    totals := Totals(0.0, 0.0, 0.0, 0.0, DiskTotals(0.0, 0.0, 0.0, 0.0, 0.0, 0.0, 0.0, 0, 0, 0), 0.0, 0.0, 0, 0, 0);
    background := map[];
    for i := 0 to |w|
      invariant totals == TotalsOf(w[..i]) && Collected(background, w[..i])
    {
      hide TotalsOf, Collected;
      totals, background := AddSample(w, i, totals, background);
    }
    assert w[..|w|] == w;
  }

  function AverageIo(name: string, w: Window): real {
    Mean(Sum(BackgroundIo(name), w), Count(ProtectionComplete, w))
  }

  /**
   * No name had more background I/O on average; the winner, if any, did have that much, and is the first of those that
   * did.
   */
  ghost predicate IsTopBackground(process: string, io: real, w: Window) {
    && io >= 0.0 && (forall name :: AverageIo(name, w) <= io)
    && (if io == 0.0 then process == ""
        else
          && io == AverageIo(ToLowerAscii(process), w)
          && forall name | name != ToLowerAscii(process) && AverageIo(name, w) == io ::
               Names.Before(ToLowerAscii(process), name))
  }

  /** What the loop over the map knows: of the names `seen`, `first` has the most, and is the first that has it. */
  ghost predicate TopSoFar(first: string, io: real, seen: set<string>, w: Window) {
    && io >= 0.0 && (forall name | name in seen :: AverageIo(name, w) <= io)
    && (io > 0.0 ==>
          && first in seen && AverageIo(first, w) == io
          && forall name | name in seen && name != first && AverageIo(name, w) == io :: Names.Before(first, name))
  }

  lemma TopOn(first: string, io: real, seen: set<string>, w: Window, name: string)
    requires TopSoFar(first, io, seen, w) && name !in seen
    requires forall earlier | earlier in seen :: Names.Before(earlier, name)
    ensures if AverageIo(name, w) > io then TopSoFar(name, AverageIo(name, w), seen + {name}, w)
            else TopSoFar(first, io, seen + {name}, w)
  {
    hide AverageIo;
  }

  lemma AverageIoOf(background: Background, w: Window, name: string)
    requires Collected(background, w)
    ensures if name in background then
              ToLowerAscii(background[name].displayName) == name
              && AverageIo(name, w) == Mean(background[name].ioSum, Count(ProtectionComplete, w))
            else AverageIo(name, w) == 0.0
  {
    hide Sum, Count;
    assert IoIn(background, name) == Sum(BackgroundIo(name), w);
  }

  /** The loop over the map, which is walked in the order of its keys. */
  method FindTopBackground(background: Background, w: Window) returns (process: string, io: real)
    requires Collected(background, w)
    ensures IsTopBackground(process, io, w)
  {
    process, io := "", 0.0;
    ghost var first := "";
    var n := Count(ProtectionComplete, w);
    forall name
      ensures name in background ==>
                ToLowerAscii(background[name].displayName) == name
                && AverageIo(name, w) == Mean(background[name].ioSum, n)
      ensures name !in background ==> AverageIo(name, w) == 0.0
    {
      AverageIoOf(background, w, name);
    }
    assert background != map[] ==> n > 0;
    hide Sum, Count, Collected, AverageIo, ToLowerAscii;
    var names := background.Keys;
    while names != {}
      invariant names <= background.Keys && TopSoFar(first, io, background.Keys - names, w)
      invariant forall name, later | name in background.Keys - names && later in names :: Names.Before(name, later)
      invariant if io == 0.0 then process == "" else ToLowerAscii(process) == first
      decreases |names|
    {
      var name := Names.Least(names);
      TopOn(first, io, background.Keys - names, w, name);
      assert background.Keys - (names - {name}) == background.Keys - names + {name};
      hide TopSoFar;
      var average := background[name].ioSum / n as real;
      if average > io {
        process, io := background[name].displayName, average;
        first := name;
      }
      names := names - {name};
    }
    assert background.Keys - names == background.Keys;
  }

  // ----- The point -----

  /** The average of 64-bit numbers is a 64-bit number. */
  lemma {:induction false} AvailableFits(w: Window)
    ensures 0.0 <= Sum(AvailableMemory, w) <= 18446744073709551615.0 * |w| as real
  {
    if w != [] {
      AvailableFits(w[..|w| - 1]);
    }
  }

  lemma AverageFits(w: Window)
    requires w != []
    ensures 0 <= Mean(Sum(AvailableMemory, w), |w|).Floor < 0x1_0000_0000_0000_0000
  {
    AvailableFits(w);
    QuotientBounds(Sum(AvailableMemory, w), |w| as real, 18446744073709551615.0);
  }

  lemma QuotientBounds(sum: real, n: real, bound: real)
    requires n > 0.0 && 0.0 <= sum <= bound * n
    ensures 0.0 <= sum / n <= bound
  {
    var quotient := sum / n;
    assert quotient * n == sum;
    assert quotient > bound ==> (quotient - bound) * n > 0.0;
    assert quotient < 0.0 ==> (0.0 - quotient) * n > 0.0;
  }

  /** Counts keep the order that the loader of sessions insists on. */
  lemma CoverageIsOrdered(w: Window)
    ensures Count(ProtectionComplete, w) <= Count(ProcessesComplete, w) <= |w|
    ensures Count(ProtectionComplete, w) <= Count(TcpComplete, w) <= |w|
  {
    CountMonotone(ProtectionComplete, ProcessesComplete, w);
    CountMonotone(ProtectionComplete, TcpComplete, w);
  }

  /** How a working set average becomes a number of bytes; C++ leaves the conversion of a larger one undefined. */
  method ToBytes(value: real) returns (bytes: u64)
    ensures 0.0 <= value && value.Floor < 0x1_0000_0000_0000_0000 ==> bytes == value.Floor
  {
    if 0.0 <= value && value.Floor < 0x1_0000_0000_0000_0000 {
      return value.Floor;
    }
    var anything: u64 := *;
    return anything;
  }

  /** The averages of a window out of its totals. */
  method Divide(totals: Totals, ghost w: Window, n: nat) returns (a: Averages)
    requires totals == TotalsOf(w) && n == |w|
    ensures a == AveragesOf(w)
  {
    hide Sum, Count, Mean;
    var d := totals.disks;
    return Averages(
      Mean(totals.cpu, n), Mean(totals.commitRatio, n), Mean(totals.pageReads, n), Mean(totals.available, n),
      Mean(totals.developmentCpu, totals.processSamples), Mean(totals.developmentWorkingSet, totals.processSamples),
      Mean(d.active, d.samples), Mean(d.latency, d.samples), Mean(d.queue, d.samples),
      Mean(d.ssdActive, d.ssdSamples), Mean(d.ssdLatency, d.ssdSamples),
      Mean(d.hddActive, d.hddSamples), Mean(d.hddLatency, d.hddSamples));
  }

  /** The point stores these averages, rendered. */
  predicate Stores(p: BenchmarkPoint, a: Averages, render: real -> Double) {
    && p.cpuPercent == render(a.cpu) && p.commitRatio == render(a.commitRatio) && p.pageReads == render(a.pageReads)
    && p.availableMemory == a.availableMemory.Floor && p.developmentCpu == render(a.developmentCpu)
    && (0.0 <= a.developmentWorkingSet && a.developmentWorkingSet.Floor < 0x1_0000_0000_0000_0000 ==>
          p.developmentWorkingSet == a.developmentWorkingSet.Floor)
    && p.diskActive == render(a.active) && p.diskLatency == render(a.latency) && p.diskQueue == render(a.queue)
    && p.ssdActive == render(a.ssdActive) && p.ssdLatency == render(a.ssdLatency)
    && p.hddActive == render(a.hddActive) && p.hddLatency == render(a.hddLatency)
  }

  function ObservedSpan(w: Window): u64
    requires w != []
  {
    if w[|w| - 1].timestampMs > w[0].timestampMs then w[|w| - 1].timestampMs - w[0].timestampMs else 0
  }

  /** What a point says of a nonempty window. */
  ghost predicate PointOf(point: BenchmarkPoint, w: Window, render: real -> Double)
    requires w != []
  {
    && point.sampleCount == |w| && point.observedSpanMs == ObservedSpan(w)
    && point.processSamples == Count(ProcessesComplete, w) && point.tcpSamples == Count(TcpComplete, w)
    && point.protectionSamples == Count(ProtectionComplete, w)
    && Stores(point, AveragesOf(w), render)
    && exists io :: IsTopBackground(point.topProcess, io, w) && point.topIo == render(io)
  }

  /**
   * A point made of a nonempty window holds the window's averages, its coverage counts are in order, its top background
   * process is a maximum, and the session loader accepts it.
   */
  method MakeBenchmarkPoint(w: Window, timestamp: string, render: real -> Double) returns (point: BenchmarkPoint)
    requires |w| < 0x1_0000_0000_0000_0000
    ensures point.sampleCount == |w| && point.timestamp == timestamp
    ensures point.processSamples == Count(ProcessesComplete, w) && point.tcpSamples == Count(TcpComplete, w)
    ensures point.protectionSamples == Count(ProtectionComplete, w)
    ensures w != [] ==> PointStorable(point) && PointOf(point, w, render)
  {
    CoverageIsOrdered(w);
    var zero := render(0.0);
    point := BenchmarkPoint(timestamp, |w|, 0, 0, 0, 0, zero, 0, zero, zero, zero, zero, zero, zero, zero, zero, zero,
                            zero, 0, "", zero);
    if w == [] {
      return;
    }
    AverageFits(w);
    var totals, background := Accumulate(w);
    var top, io := FindTopBackground(background, w);
    var a := Divide(totals, w, |w|);
    assert a.availableMemory == Mean(Sum(AvailableMemory, w), |w|);
    hide *;
    point := Filled(w, timestamp, render, totals, a, top, io);
  }

  /** Puts the pieces into a point. */
  method Filled(
      w: Window, timestamp: string, render: real -> Double, totals: Totals, a: Averages, top: string, io: real)
    returns (point: BenchmarkPoint)
    requires 0 < |w| < 0x1_0000_0000_0000_0000 && totals == TotalsOf(w)
    requires 0 <= a.availableMemory.Floor < 0x1_0000_0000_0000_0000
    ensures point.sampleCount == |w| && point.timestamp == timestamp
    ensures point.processSamples == Count(ProcessesComplete, w) && point.tcpSamples == Count(TcpComplete, w)
    ensures point.protectionSamples == Count(ProtectionComplete, w)
    ensures PointStorable(point) && Stores(point, a, render) && point.observedSpanMs == ObservedSpan(w)
    ensures point.topProcess == top && point.topIo == render(io)
  {
    CoverageIsOrdered(w);
    hide Count, Sum, NumOk, DiskTotalsOf;
    var workingSet := ToBytes(a.developmentWorkingSet);
    point := BenchmarkPoint(
      timestamp, |w|, if |w| >= 2 then ObservedSpan(w) else 0,
      totals.processSamples, totals.tcpSamples, totals.protectionSamples,
      render(a.cpu), a.availableMemory.Floor, render(a.commitRatio),
      render(a.active), render(a.latency), render(a.queue),
      render(a.ssdActive), render(a.ssdLatency), render(a.hddActive), render(a.hddLatency),
      render(a.pageReads), render(a.developmentCpu), workingSet, top, render(io));
  }
}
