/** A window of snapshots, and what can be counted and added up over it, declaratively. */
module Windows {
  import opened Types

  type Window = seq<SystemSnapshot>

  const MIB := 1048576.0

  // ----- Yes-or-no questions about one snapshot -----

  datatype Question =
    | ProcessesComplete
    | TcpComplete
    | ProtectionComplete
    | MemoryPressure(t: Thresholds)
    | PagingPressure(t: Thresholds)
    | CpuSaturated(t: Thresholds)
    | DefenderSeen
    | DefenderUsesCpu(t: Thresholds)
    | DefenderUsesIo(t: Thresholds)
    | DefenderImpact(t: Thresholds)
    | HasDisk
    | HasDiskOf(media: DiskMedia)

  predicate IsMemoryPressure(s: SystemSnapshot, t: Thresholds) {
    s.memory.available as real / MIB < t.availableMemoryMb && s.memory.CommitRatio() >= t.commitWarning
  }

  predicate Holds(q: Question, s: SystemSnapshot) {
    match q
    case ProcessesComplete => s.processComplete
    case TcpComplete => s.tcpComplete
    case ProtectionComplete => s.processComplete && s.tcpComplete
    case MemoryPressure(t) => IsMemoryPressure(s, t)
    case PagingPressure(t) => IsMemoryPressure(s, t) && s.pageReads >= t.pageReads
    case CpuSaturated(t) => s.cpuPercent >= t.cpuSaturationRatio * 100.0
    case DefenderSeen => Defender(s).Some?
    case DefenderUsesCpu(t) => Defender(s).Some? && UsesCpu(Defender(s).value, t)
    case DefenderUsesIo(t) => Defender(s).Some? && UsesIo(Defender(s).value, TotalIo(s.processes), t)
    case DefenderImpact(t) =>
      Defender(s).Some? && (UsesCpu(Defender(s).value, t) || UsesIo(Defender(s).value, TotalIo(s.processes), t))
    case HasDisk => s.disks != []
    case HasDiskOf(media) => exists d | d in s.disks :: d.media == media
  }

  /** The first process of this name in a complete inventory. */
  function Defender(s: SystemSnapshot): Option<ProcessSnapshot> {
    if s.processComplete then FindByName(s.processes, "msmpeng.exe") else None
  }

  function FindByName(processes: seq<ProcessSnapshot>, lowerName: string): Option<ProcessSnapshot> {
    if processes == [] then None
    else if ToLowerAscii(processes[0].name) == lowerName then Some(processes[0])
    else FindByName(processes[1..], lowerName)
  }

  predicate UsesCpu(p: ProcessSnapshot, t: Thresholds) { p.cpuPercent >= t.defenderCpuRatio * 100.0 }

  predicate UsesIo(p: ProcessSnapshot, total: real, t: Thresholds) {
    p.IoBytesPerSec() >= MIB && total > 0.0 && p.IoBytesPerSec() / total >= t.defenderIoRatio
  }

  function TotalIo(processes: seq<ProcessSnapshot>): real {
    if processes == [] then 0.0
    else TotalIo(processes[..|processes| - 1]) + processes[|processes| - 1].IoBytesPerSec()
  }

  /** How many snapshots of the window answer yes. */
  function Count(q: Question, w: Window): (n: nat)
    ensures n <= |w|
  {
    if w == [] then 0 else Count(q, w[..|w| - 1]) + if Holds(q, w[|w| - 1]) then 1 else 0
  }

  lemma CountStep(q: Question, w: Window, i: nat)
    requires i < |w|
    ensures Count(q, w[..i + 1]) == Count(q, w[..i]) + if Holds(q, w[i]) then 1 else 0
  {
    assert w[..i + 1][..i] == w[..i];
  }

  /** The places of the snapshots that answer yes. */
  function Places(q: Question, w: Window): set<int> { set i | 0 <= i < |w| && Holds(q, w[i]) }

  lemma PlacesGrow(q: Question, w: Window)
    requires w != []
    ensures var n := |w| - 1;
            n !in Places(q, w[..n]) && Places(q, w) == Places(q, w[..n]) + if Holds(q, w[n]) then {n} else {}
  {
    hide Holds;
  }

  /** Counting is taking the size of the set of snapshots that answer yes. */
  lemma {:induction false} CountIsCardinality(q: Question, w: Window)
    ensures Count(q, w) == |Places(q, w)|
  {
    if w == [] {
      assert Places(q, w) == {};
    } else {
      hide Places, Holds;
      CountIsCardinality(q, w[..|w| - 1]);
      PlacesGrow(q, w);
    }
  }

  /** Who answers yes to the stronger question answers yes to the weaker one. */
  lemma {:induction false} CountMonotone(q: Question, r: Question, w: Window)
    requires forall s | s in w :: Holds(q, s) ==> Holds(r, s)
    ensures Count(q, w) <= Count(r, w)
  {
    if w != [] {
      CountMonotone(q, r, w[..|w| - 1]);
    }
  }

  // ----- Quantities -----

  datatype Quantity =
    | Cpu
    | AvailableMemory
    | CommitRatio
    | PageReads
    | WorstActive(media: Option<DiskMedia>)
    | WorstLatency(media: Option<DiskMedia>)
    | WorstQueue
    | DevelopmentCpu
    | DevelopmentWorkingSet
    | BackgroundIo(name: string)
    | DefenderCpu
    | DefenderIo
    | AllIo

  function Max(a: real, b: real): real { if a < b then b else a }

  function DiskValue(q: Quantity, d: DiskSnapshot): real {
    match q
    case WorstActive(media) => if media.None? || media.value == d.media then d.activeRatio else 0.0
    case WorstLatency(media) => if media.None? || media.value == d.media then d.averageLatencyMs else 0.0
    case WorstQueue => d.queueLength
    case _ => 0.0
  }

  /** The largest value over the disks, and at least zero. */
  function Worst(q: Quantity, disks: seq<DiskSnapshot>): real {
    if disks == [] then 0.0 else Max(Worst(q, disks[..|disks| - 1]), DiskValue(q, disks[|disks| - 1]))
  }

  predicate IsBackground(p: ProcessSnapshot) {
    p.classification.Updater? || p.classification.CloudSync? || p.classification.VendorUtility?
    || p.classification.Communication?
  }

  predicate IsProtectedLevel(level: ProtectionLevel) {
    level == SystemCritical || level == Strong || level == UserExplicit
  }

  /** Background programs that nothing protects. */
  predicate Qualifies(p: ProcessSnapshot) { IsBackground(p) && !IsProtectedLevel(p.protection) }

  function ProcessValue(q: Quantity, p: ProcessSnapshot): real {
    match q
    case DevelopmentCpu => if p.classification.Development? then p.cpuPercent else 0.0
    case DevelopmentWorkingSet => if p.classification.Development? then p.workingSet as real else 0.0
    case BackgroundIo(name) => if Qualifies(p) && ToLowerAscii(p.name) == name then p.IoBytesPerSec() else 0.0
    case AllIo => p.IoBytesPerSec()
    case _ => 0.0
  }

  function ProcessTotal(q: Quantity, processes: seq<ProcessSnapshot>): real {
    if processes == [] then 0.0
    else ProcessTotal(q, processes[..|processes| - 1]) + ProcessValue(q, processes[|processes| - 1])
  }

  function Measure(q: Quantity, s: SystemSnapshot): real {
    match q
    case Cpu => s.cpuPercent
    case AvailableMemory => s.memory.available as real
    case CommitRatio => s.memory.CommitRatio()
    case PageReads => s.pageReads
    case WorstActive(_) => Worst(q, s.disks)
    case WorstLatency(_) => Worst(q, s.disks)
    case WorstQueue => Worst(q, s.disks)
    case BackgroundIo(_) => if s.processComplete && s.tcpComplete then ProcessTotal(q, s.processes) else 0.0
    case DefenderCpu => if Defender(s).Some? then Defender(s).value.cpuPercent else 0.0
    case DefenderIo => if Defender(s).Some? then Defender(s).value.IoBytesPerSec() else 0.0
    case _ => if s.processComplete then ProcessTotal(q, s.processes) else 0.0
  }

  function Sum(q: Quantity, w: Window): real {
    if w == [] then 0.0 else Sum(q, w[..|w| - 1]) + Measure(q, w[|w| - 1])
  }

  lemma SumStep(q: Quantity, w: Window, i: nat)
    requires i < |w|
    ensures Sum(q, w[..i + 1]) == Sum(q, w[..i]) + Measure(q, w[i])
  {
    assert w[..i + 1][..i] == w[..i];
  }

  lemma ProcessStep(q: Quantity, processes: seq<ProcessSnapshot>, i: nat)
    requires i < |processes|
    ensures ProcessTotal(q, processes[..i + 1]) == ProcessTotal(q, processes[..i]) + ProcessValue(q, processes[i])
  {
    assert processes[..i + 1][..i] == processes[..i];
  }

  lemma WorstStep(q: Quantity, disks: seq<DiskSnapshot>, i: nat)
    requires i < |disks|
    ensures Worst(q, disks[..i + 1]) == Max(Worst(q, disks[..i]), DiskValue(q, disks[i]))
  {
    assert disks[..i + 1][..i] == disks[..i];
  }

  /** The worst value is one that occurs, or zero, and no disk is worse. */
  lemma {:induction false} WorstIsMaximum(q: Quantity, disks: seq<DiskSnapshot>)
    ensures Worst(q, disks) >= 0.0 && forall d | d in disks :: DiskValue(q, d) <= Worst(q, disks)
    ensures Worst(q, disks) == 0.0 || exists d | d in disks :: DiskValue(q, d) == Worst(q, disks)
  {
    if disks != [] {
      WorstIsMaximum(q, disks[..|disks| - 1]);
      assert disks == disks[..|disks| - 1] + [disks[|disks| - 1]];
    }
  }
}
