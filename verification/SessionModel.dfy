/** Sessions, and which of them the loader lets back in. */
module SessionModel {
  import opened Types
  import opened JsonText

  datatype SessionState = Active | Recovering | Completed | SafeMode

  datatype BenchmarkPoint = BenchmarkPoint(
    timestamp: string, sampleCount: u64, observedSpanMs: u64, processSamples: u64, tcpSamples: u64,
    protectionSamples: u64, cpuPercent: Double, availableMemory: u64, commitRatio: Double, diskActive: Double,
    diskLatency: Double, diskQueue: Double, ssdActive: Double, ssdLatency: Double, hddActive: Double,
    hddLatency: Double, pageReads: Double, developmentCpu: Double, developmentWorkingSet: u64, topProcess: string,
    topIo: Double)

  datatype Session = Session(
    id: string, state: SessionState, startTime: string, baseline: BenchmarkPoint, actions: seq<ExecutedAction>)

  predicate ValidServiceName(name: string) {
    1 <= |name| <= 256 && forall c | c in name :: c >= ' ' && c != '\\' && c != '/'
  }

  predicate ValidServiceIdentity(token: string) {
    |token| == 16 && forall c | c in token :: '0' <= c <= '9' || 'a' <= c <= 'f'
  }

  predicate PointStorable(p: BenchmarkPoint) {
    && p.sampleCount > 0
    && p.processSamples <= p.sampleCount && p.tcpSamples <= p.sampleCount
    && p.protectionSamples <= p.processSamples && p.protectionSamples <= p.tcpSamples
  }

  predicate ActionStorable(a: ExecutedAction) {
    match a.action.kind
    case SetPriorityClass => a.action.pid > 0 && a.action.startTime > 0 && a.action.risk == Safe
    case GracefulCloseProcess =>
      && a.action.pid > 0 && a.action.startTime > 0 && a.action.risk == ActionRisk.Low
      && 100 <= a.action.timeoutMs <= 5000
      && a.state != Applied && a.state != RolledBack
    case StopServiceTemporary =>
      && a.action.pid == 0 && a.action.startTime == 0 && a.action.risk == ActionRisk.Medium
      && 1000 <= a.action.timeoutMs <= 30000
      && ValidServiceName(a.action.serviceName) && ValidServiceIdentity(a.action.serviceIdentity)
      && a.action.sourceServiceState == Running && a.action.explicitConfirmation
      && a.originalServiceState == Running
      && a.state != ActionState.Completed
    case _ => false
  }

  predicate AllStorable(actions: seq<ExecutedAction>) {
    forall i | 0 <= i < |actions| :: ActionStorable(actions[i])
  }

  /** The sessions the loader lets back in. */
  predicate Storable(s: Session) {
    PointStorable(s.baseline) && AllStorable(s.actions)
  }
}
