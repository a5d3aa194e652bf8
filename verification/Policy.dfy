/** Classification and protection: what no configuration may touch. */
module Policy {
  import opened Types

  // ----- Classification (Config::RuleFor and ServiceRuleFor) -----

  predicate IsSystemProcess(name: string) {
    name in {
      "system", "registry", "smss.exe", "csrss.exe", "wininit.exe", "services.exe", "lsass.exe", "svchost.exe",
      "winlogon.exe", "dwm.exe", "searchindexer.exe" }
  }

  predicate IsSecurityProcess(name: string) {
    name in {
      "msmpeng.exe", "nissrv.exe", "senseir.exe", "sensece.exe", "securityhealthservice.exe" }
  }

  /** The class of a well-known workload. */
  function WorkloadOf(name: string): Option<ProcessClass> {
    var workloads := map[
      "codex.exe" := ProcessClass.Development, "code.exe" := ProcessClass.Development,
      "devenv.exe" := ProcessClass.Development, "clion64.exe" := ProcessClass.Development,
      "idea64.exe" := ProcessClass.Development, "ssh.exe" := ProcessClass.RemoteTerminal,
      "telnet.exe" := ProcessClass.RemoteTerminal, "putty.exe" := ProcessClass.RemoteTerminal,
      "xshell.exe" := ProcessClass.RemoteTerminal, "mobaxterm.exe" := ProcessClass.RemoteTerminal,
      "windowsterminal.exe" := ProcessClass.RemoteTerminal, "securecrt.exe" := ProcessClass.SerialTerminal,
      "ttermpro.exe" := ProcessClass.SerialTerminal, "teraterm.exe" := ProcessClass.SerialTerminal,
      "puttytel.exe" := ProcessClass.SerialTerminal, "wireshark.exe" := ProcessClass.PacketCapture,
      "dumpcap.exe" := ProcessClass.PacketCapture, "tshark.exe" := ProcessClass.PacketCapture,
      "git.exe" := ProcessClass.VersionControl, "scp.exe" := ProcessClass.VersionControl,
      "sftp.exe" := ProcessClass.VersionControl, "git-remote-http.exe" := ProcessClass.VersionControl,
      "git-remote-https.exe" := ProcessClass.VersionControl, "cmake.exe" := ProcessClass.BuildTool,
      "ninja.exe" := ProcessClass.BuildTool, "make.exe" := ProcessClass.BuildTool,
      "msbuild.exe" := ProcessClass.BuildTool, "cl.exe" := ProcessClass.BuildTool,
      "clang.exe" := ProcessClass.BuildTool, "gcc.exe" := ProcessClass.BuildTool, "g++.exe" := ProcessClass.BuildTool,
      "python.exe" := ProcessClass.BuildTool, "python3.exe" := ProcessClass.BuildTool,
      "bash.exe" := ProcessClass.BuildTool, "wsl.exe" := ProcessClass.BuildTool ];
    if name in workloads then Some(workloads[name]) else None
  }

  predicate IsSystemService(name: string) {
    name in {
      "appinfo", "cryptsvc", "dcomlaunch", "eventlog", "lsm", "plugplay", "power", "profsvc", "rpceptmapper", "rpcss",
      "samss", "schedule", "services", "systemeventsbroker", "trustedinstaller", "winmgmt" }
  }

  predicate IsNetworkService(name: string) {
    name in {
      "bfe", "dhcp", "dnscache", "iphlpsvc", "lanmanserver", "lanmanworkstation", "lmhosts", "mpssvc", "netprofm",
      "nlasvc", "nsi", "rasman", "remoteaccess", "termservice", "umrdpservice" }
  }

  predicate IsSecurityService(name: string) {
    name in {
      "sense", "securityhealthservice", "windefend", "wdiservicehost", "wdisystemhost", "wscsvc", "wdnissvc" }
  }

  predicate IsRemoteOrCaptureService(name: string) {
    name in {
      "npcap", "npf", "sessionenv", "ssh-agent", "sshd" }
  }

  predicate IsDeviceService(name: string) {
    name in {
      "deviceassociationservice", "deviceinstall", "devquerybroker", "dsmsvc", "shellhwdetection", "wudfsvc",
      "wpdbusenum" }
  }

  function RuleFor(config: Config, processName: string): ProcessRule {
    var name := ToLowerAscii(processName);
    if IsSystemProcess(name) then ProcessRule(ProcessClass.System, SystemCritical)
    else if IsSecurityProcess(name) then ProcessRule(ProcessClass.Security, SystemCritical)
    else if WorkloadOf(name).Some? then ProcessRule(WorkloadOf(name).value, Strong)
    else if name in config.processRules then config.processRules[name]
    else ProcessRule(ProcessClass.Unknown, Strong)
  }

  function ServiceRuleFor(config: Config, serviceName: string): ServiceRule {
    var name := ToLowerAscii(serviceName);
    if IsSystemService(name) then ServiceRule(ServiceClass.System, SystemCritical)
    else if IsNetworkService(name) then ServiceRule(ServiceClass.Network, SystemCritical)
    else if IsSecurityService(name) then ServiceRule(ServiceClass.Security, SystemCritical)
    else if IsRemoteOrCaptureService(name) then
      ServiceRule(if name == "npcap" || name == "npf" then ServiceClass.PacketCapture else ServiceClass.RemoteAccess,
                  Strong)
    else if IsDeviceService(name) then ServiceRule(ServiceClass.Device, Strong)
    else if name in config.serviceRules then config.serviceRules[name]
    else ServiceRule(ServiceClass.Unknown, Strong)
  }

  // ----- Runtime context -----

  /** Some process of the snapshot is the capture helper. */
  predicate CaptureActive(processes: seq<ProcessSnapshot>) {
    exists p | p in processes :: ToLowerAscii(p.name) == "dumpcap.exe"
  }

  predicate IsRemoteSession(s: TcpSession, ports: set<u16>) {
    s.state == Established && (s.remotePort == 22 || s.remotePort == 23 || s.remotePort in ports)
  }

  /** BuildRuntimeContext, declaratively. */
  function ContextOf(snapshot: SystemSnapshot, ports: set<u16>): RuntimeContext {
    RuntimeContext(
      set s | s in snapshot.sessions && IsRemoteSession(s, ports) :: s.pid,
      set p | p in snapshot.processes && CaptureActive(snapshot.processes)
              && p.classification == ProcessClass.PacketCapture :: p.pid)
  }

  method BuildRuntimeContext(snapshot: SystemSnapshot, ports: set<u16>) returns (context: RuntimeContext)
    ensures context == ContextOf(snapshot, ports)
  {
    var captureActive := false;
    for i := 0 to |snapshot.processes|
      invariant captureActive == CaptureActive(snapshot.processes[..i])
    {
      var process := snapshot.processes[i];
      assert snapshot.processes[..i + 1] == snapshot.processes[..i] + [process];
      if ToLowerAscii(process.name) == "dumpcap.exe" { captureActive := true; }
    }
    assert snapshot.processes[..|snapshot.processes|] == snapshot.processes;
    var remote: set<u32> := {};
    for i := 0 to |snapshot.sessions|
      invariant remote == set s | s in snapshot.sessions[..i] && IsRemoteSession(s, ports) :: s.pid
    {
      var session := snapshot.sessions[i];
      assert snapshot.sessions[..i + 1] == snapshot.sessions[..i] + [session];
      if session.state == Established
         && (session.remotePort == 22 || session.remotePort == 23 || session.remotePort in ports) {
        remote := remote + {session.pid};
      }
    }
    assert snapshot.sessions[..|snapshot.sessions|] == snapshot.sessions;
    var capture: set<u32> := {};
    if captureActive {
      for i := 0 to |snapshot.processes|
        invariant capture ==
                  set p | p in snapshot.processes[..i] && p.classification == ProcessClass.PacketCapture :: p.pid
      {
        var process := snapshot.processes[i];
        assert snapshot.processes[..i + 1] == snapshot.processes[..i] + [process];
        if process.classification == ProcessClass.PacketCapture { capture := capture + {process.pid}; }
      }
    }
    return RuntimeContext(remote, capture);
  }

  // ----- ProtectionPolicy -----

  predicate IsAlwaysProtected(config: Config, name: string) { ToLowerAscii(name) in config.profile.alwaysProtect }

  predicate IsWorkloadOrUnknown(c: ProcessClass) {
    c.Development? || c.RemoteTerminal? || c.SerialTerminal? || c.PacketCapture? || c.BuildTool? || c.VersionControl?
    || c.Unknown?
  }

  function Protection(config: Config, p: ProcessSnapshot, context: RuntimeContext): ProtectionLevel {
    if p.pid <= 4 then SystemCritical
    else if IsAlwaysProtected(config, p.name) then UserExplicit
    else if p.classification.System? || p.classification.Security? then SystemCritical
    else if p.pid in context.remotePids || p.pid in context.capturePids then Strong
    else if IsWorkloadOrUnknown(p.classification) then Strong
    else RuleFor(config, p.name).protection
  }

  predicate IsProtected(config: Config, p: ProcessSnapshot, context: RuntimeContext) {
    var level := Protection(config, p, context);
    level == SystemCritical || level == Strong || level == UserExplicit
  }

  predicate CanChangePriority(config: Config, p: ProcessSnapshot, context: RuntimeContext, raise: bool) {
    var level := Protection(config, p, context);
    if level == SystemCritical || level == UserExplicit then false
    else if raise then
      p.classification.Development? && ToLowerAscii(p.name) in config.profile.foregroundPriority
    else level != Strong && ToLowerAscii(p.name) in config.profile.allowPriorityDown
  }

  predicate CanGracefullyClose(config: Config, p: ProcessSnapshot, context: RuntimeContext) {
    !IsProtected(config, p, context) && ToLowerAscii(p.name) in config.profile.allowGracefulClose
  }

  // ----- ServiceProtectionPolicy -----

  predicate Contains(text: string, word: string) {
    exists i | 0 <= i <= |text| :: word <= text[i..]
  }

  predicate ContainsBlockedKeyword(s: ServiceSnapshot) {
    var text := ToLowerAscii(s.name + " " + s.displayName);
    || Contains(text, "antivirus") || Contains(text, "anyconnect") || Contains(text, "carbon black")
    || Contains(text, "crowdstrike") || Contains(text, "cylance") || Contains(text, "defender")
    || Contains(text, "endpoint") || Contains(text, "falcon") || Contains(text, "forti")
    || Contains(text, "globalprotect") || Contains(text, "mcafee") || Contains(text, "npcap")
    || Contains(text, "openvpn") || Contains(text, "security") || Contains(text, "sentinel")
    || Contains(text, "sophos") || Contains(text, "symantec") || Contains(text, "trend micro")
    || Contains(text, "vpn") || Contains(text, "zscaler")
  }

  predicate NeverStopped(c: ServiceClass) {
    c.System? || c.Network? || c.Security? || c.RemoteAccess? || c.PacketCapture? || c.Device? || c.Unknown?
  }

  function ServiceProtection(config: Config, s: ServiceSnapshot, context: RuntimeContext): ProtectionLevel {
    var rule := ServiceRuleFor(config, s.name);
    if rule.protection == SystemCritical || rule.serviceClass.System? || rule.serviceClass.Network?
       || rule.serviceClass.Security?
    then SystemCritical
    else if ContainsBlockedKeyword(s) || NeverStopped(rule.serviceClass) || s.pid in context.remotePids
            || s.pid in context.capturePids
    then Strong
    else if ToLowerAscii(s.name) in config.profile.alwaysProtectServices then UserExplicit
    else rule.protection
  }

  predicate EligibleClass(c: ServiceClass) { c.Updater? || c.CloudSync? || c.VendorUtility? }

  predicate CanRestore(config: Config, s: ServiceSnapshot, context: RuntimeContext) {
    && s.identityVerified && s.identityToken != ""
    && EligibleClass(ServiceRuleFor(config, s.name).serviceClass)
    && ServiceProtection(config, s, context) == Optimizable
    && ToLowerAscii(s.name) in config.profile.allowServiceStop
  }

  predicate CanStopTemporary(config: Config, s: ServiceSnapshot, context: RuntimeContext) {
    s.state == Running && s.acceptsStop && CanRestore(config, s, context)
  }
}
