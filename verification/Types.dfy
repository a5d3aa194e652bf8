/** The values every component of WorkBoost exchanges. */
module Types {
  datatype Option<+T> = None | Some(value: T) {
    predicate IsFailure() { None? }

    function PropagateFailure<U>(): Option<U>
      requires None?
    {
      None
    }

    function Extract(): T
      requires Some?
    {
      value
    }
  }

  type u16 = x: int | 0 <= x < 0x1_0000
  type u32 = x: int | 0 <= x < 0x1_0000_0000
  type u64 = x: int | 0 <= x < 0x1_0000_0000_0000_0000

  datatype ProcessClass =
    | System | Security | Development | RemoteTerminal | SerialTerminal | PacketCapture | BuildTool | VersionControl
    | Browser | Communication | Office | Updater | CloudSync | VendorUtility | Unknown

  datatype ProtectionLevel = SystemCritical | Strong | Normal | Optimizable | UserExplicit

  datatype ServiceClass =
    | System | Network | Security | RemoteAccess | PacketCapture | Device | Updater | CloudSync | VendorUtility
    | Unknown

  datatype ServiceState =
    | Unknown | Stopped | StartPending | StopPending | Running | ContinuePending | PausePending | Paused

  datatype DiskMedia = Unknown | SSD | HDD
  datatype Severity = Low | Medium | High
  datatype Confidence = Low | Medium | High

  /** Connection states other than Established are never told apart by the protection rules. */
  datatype TcpState = Established | Other

  datatype MemorySnapshot = MemorySnapshot(available: u64, commitTotal: u64, commitLimit: u64)
  {
    function CommitRatio(): real {
      if commitLimit == 0 then 0.0 else commitTotal as real / commitLimit as real
    }
  }

  datatype DiskSnapshot = DiskSnapshot(
    instance: string, media: DiskMedia, activeRatio: real, averageLatencyMs: real, queueLength: real,
    totalSpace: u64, freeSpace: u64, spaceComplete: bool)
  {
    function FreeSpaceRatio(): real {
      if totalSpace == 0 then 0.0 else freeSpace as real / totalSpace as real
    }
  }

  datatype ProcessSnapshot = ProcessSnapshot(
    pid: u32, name: string, startTime: u64, priority: u32, hasVisibleWindow: bool, isForeground: bool,
    classification: ProcessClass, protection: ProtectionLevel,
    cpuPercent: real, workingSet: u64, readBytes: real, writeBytes: real)
  {
    function IoBytesPerSec(): real { readBytes + writeBytes }
  }

  datatype TcpSession = TcpSession(pid: u32, remotePort: u16, state: TcpState)

  datatype ServiceSnapshot = ServiceSnapshot(
    name: string, displayName: string, state: ServiceState, pid: u32, acceptsStop: bool,
    identityVerified: bool, identityToken: string)

  datatype SystemSnapshot = SystemSnapshot(
    timestampMs: u64, cpuPercent: real, memory: MemorySnapshot, pageReads: real,
    disks: seq<DiskSnapshot>, processes: seq<ProcessSnapshot>, sessions: seq<TcpSession>,
    services: seq<ServiceSnapshot>, processComplete: bool, tcpComplete: bool, serviceComplete: bool)

  datatype RuntimeContext = RuntimeContext(remotePids: set<u32>, capturePids: set<u32>)

  datatype ProcessRule = ProcessRule(processClass: ProcessClass, protection: ProtectionLevel)
  datatype ServiceRule = ServiceRule(serviceClass: ServiceClass, protection: ProtectionLevel)

  datatype CodingProfile = CodingProfile(
    foregroundPriority: map<string, string>, alwaysProtect: set<string>, allowGracefulClose: set<string>,
    allowPriorityDown: set<string>, alwaysProtectServices: set<string>, allowServiceStop: set<string>)

  datatype Thresholds = Thresholds(
    commitWarning: real, availableMemoryMb: real, pageReads: real, diskActiveRatio: real, hddLatencyMs: real,
    cpuSaturationRatio: real, backgroundIo: real, defenderCpuRatio: real, defenderIoRatio: real,
    ssdFreeSpaceRatio: real)

  datatype Config = Config(
    profile: CodingProfile, processRules: map<string, ProcessRule>, serviceRules: map<string, ServiceRule>,
    remoteDebugPorts: set<u16>, thresholds: Thresholds)

  datatype ActionType =
    | GracefulCloseProcess | TerminateProcess | SetPriorityClass | StopServiceTemporary | StartServiceAction
    | DisableStartupEntry | RestoreStartupEntry

  datatype ActionRisk = Safe | Low | Medium | High | Forbidden
  datatype ActionState = Planned | Applied | Completed | RolledBack | Uncertain | Failed | Rejected

  datatype OptimizationAction = OptimizationAction(
    id: string, kind: ActionType, risk: ActionRisk, pid: u32, startTime: u64, processName: string,
    sourcePriority: u32, targetPriority: u32, timeoutMs: u32, serviceName: string, serviceIdentity: string,
    sourceServiceState: ServiceState, explicitConfirmation: bool, reason: string)

  datatype ExecutedAction = ExecutedAction(
    action: OptimizationAction, state: ActionState, originalPriority: u32, originalServiceState: ServiceState,
    errorCode: u32, errorMessage: string, resultMessage: string)

  predicate IsReversible(kind: ActionType) {
    kind == SetPriorityClass || kind == StopServiceTemporary || kind == DisableStartupEntry
  }

  function LowerChar(c: char): char {
    if 'A' <= c <= 'Z' then c + 32 as char else c
  }

  function ToLowerAscii(s: string): (r: string)
    ensures |r| == |s|
  {
    if s == "" then "" else [LowerChar(s[0])] + ToLowerAscii(s[1..])
  }

  // Windows priority classes
  const NORMAL_PRIORITY: u32 := 0x20
  const IDLE_PRIORITY: u32 := 0x40
  const HIGH_PRIORITY: u32 := 0x80
  const REALTIME_PRIORITY: u32 := 0x100
  const BELOW_NORMAL_PRIORITY: u32 := 0x4000
  const ABOVE_NORMAL_PRIORITY: u32 := 0x8000
}
