/** Sessions on disk: the printer, the gatekeeping loader, and what survives the trip through the file. */
module SessionText {
  import opened Types
  import opened JsonText
  import opened JsonScan
  import opened JsonFields
  import opened Words
  import opened JsonLayout
  import opened SessionModel
  import JsonSyntax

  // ----- Names of enumerators -----

  function SessionStateName(s: SessionState): string {
    match s
    case Active => "Active"
    case Recovering => "Recovering"
    case Completed => "Completed"
    case SafeMode => "SafeMode"
  }

  function SessionStateFrom(s: string): Option<SessionState> {
    if s == "Active" then Some(Active)
    else if s == "Recovering" then Some(Recovering)
    else if s == "Completed" then Some(SessionState.Completed)
    else if s == "SafeMode" then Some(SafeMode)
    else None
  }

  function ActionTypeName(k: ActionType): string {
    match k
    case GracefulCloseProcess => "GracefulCloseProcess"
    case TerminateProcess => "TerminateProcess"
    case SetPriorityClass => "SetPriorityClass"
    case StopServiceTemporary => "StopServiceTemporary"
    case StartServiceAction => "StartService"
    case DisableStartupEntry => "DisableStartupEntry"
    case RestoreStartupEntry => "RestoreStartupEntry"
  }

  function ActionTypeFrom(s: string): Option<ActionType> {
    if s == "GracefulCloseProcess" then Some(GracefulCloseProcess)
    else if s == "TerminateProcess" then Some(TerminateProcess)
    else if s == "SetPriorityClass" then Some(SetPriorityClass)
    else if s == "StopServiceTemporary" then Some(StopServiceTemporary)
    else if s == "StartService" then Some(StartServiceAction)
    else if s == "DisableStartupEntry" then Some(DisableStartupEntry)
    else if s == "RestoreStartupEntry" then Some(RestoreStartupEntry)
    else None
  }

  function RiskName(r: ActionRisk): string {
    match r
    case Safe => "Safe"
    case Low => "Low"
    case Medium => "Medium"
    case High => "High"
    case Forbidden => "Forbidden"
  }

  function RiskFrom(s: string): Option<ActionRisk> {
    if s == "Safe" then Some(Safe)
    else if s == "Low" then Some(ActionRisk.Low)
    else if s == "Medium" then Some(ActionRisk.Medium)
    else if s == "High" then Some(ActionRisk.High)
    else if s == "Forbidden" then Some(Forbidden)
    else None
  }

  function ActionStateName(s: ActionState): string {
    match s
    case Planned => "Planned"
    case Applied => "Applied"
    case Completed => "Completed"
    case RolledBack => "RolledBack"
    case Uncertain => "Uncertain"
    case Failed => "Failed"
    case Rejected => "Rejected"
  }

  function ActionStateFrom(s: string): Option<ActionState> {
    if s == "Planned" then Some(Planned)
    else if s == "Applied" then Some(Applied)
    else if s == "Completed" then Some(ActionState.Completed)
    else if s == "RolledBack" then Some(RolledBack)
    else if s == "Uncertain" then Some(Uncertain)
    else if s == "Rejected" then Some(Rejected)
    else if s == "Failed" then Some(Failed)
    else None
  }

  function ServiceStateName(s: ServiceState): string {
    match s
    case Stopped => "STOPPED"
    case StartPending => "START_PENDING"
    case StopPending => "STOP_PENDING"
    case Running => "RUNNING"
    case ContinuePending => "CONTINUE_PENDING"
    case PausePending => "PAUSE_PENDING"
    case Paused => "PAUSED"
    case Unknown => "UNKNOWN"
  }

  function ServiceStateFrom(s: string): Option<ServiceState> {
    if s == "STOPPED" then Some(Stopped)
    else if s == "START_PENDING" then Some(StartPending)
    else if s == "STOP_PENDING" then Some(StopPending)
    else if s == "RUNNING" then Some(Running)
    else if s == "CONTINUE_PENDING" then Some(ContinuePending)
    else if s == "PAUSE_PENDING" then Some(PausePending)
    else if s == "PAUSED" then Some(Paused)
    else if s == "UNKNOWN" then Some(ServiceState.Unknown)
    else None
  }

  lemma NamesReadBack(a: SessionState, b: ActionType, c: ActionRisk, d: ActionState, e: ServiceState)
    ensures SessionStateFrom(SessionStateName(a)) == Some(a)
    ensures ActionTypeFrom(ActionTypeName(b)) == Some(b)
    ensures RiskFrom(RiskName(c)) == Some(c)
    ensures ActionStateFrom(ActionStateName(d)) == Some(d)
    ensures ServiceStateFrom(ServiceStateName(e)) == Some(e)
  {
    hide SessionStateFrom, SessionStateName, ActionTypeFrom, ActionTypeName, RiskFrom, RiskName, ActionStateFrom,
      ActionStateName, ServiceStateFrom, ServiceStateName;
    SessionStateReadsBack(a);
    ActionTypeReadsBack(b);
    RiskReadsBack(c);
    ActionStateReadsBack(d);
    ServiceStateReadsBack(e);
  }

  lemma SessionStateReadsBack(a: SessionState)
    ensures SessionStateFrom(SessionStateName(a)) == Some(a)
  {
  }

  lemma ActionTypeReadsBack(b: ActionType)
    ensures ActionTypeFrom(ActionTypeName(b)) == Some(b)
  {
  }

  lemma RiskReadsBack(c: ActionRisk)
    ensures RiskFrom(RiskName(c)) == Some(c)
  {
  }

  lemma ActionStateReadsBack(d: ActionState)
    ensures ActionStateFrom(ActionStateName(d)) == Some(d)
  {
  }

  lemma ServiceStateReadsBack(e: ServiceState)
    ensures ServiceStateFrom(ServiceStateName(e)) == Some(e)
  {
  }

  // ----- The printer -----

  function PointFields(p: BenchmarkPoint): seq<Field> {
    [ Field("timestamp", Text(p.timestamp)),
      Field("sample_count", Natural(p.sampleCount)),
      Field("observed_span_ms", Natural(p.observedSpanMs)),
      Field("process_inventory_complete_samples", Natural(p.processSamples)),
      Field("tcp_inventory_complete_samples", Natural(p.tcpSamples)),
      Field("protection_inventory_complete_samples", Natural(p.protectionSamples)),
      Field("cpu_percent", Real(p.cpuPercent)),
      Field("available_memory_bytes", Natural(p.availableMemory)),
      Field("commit_ratio", Real(p.commitRatio)),
      Field("maximum_disk_active_ratio", Real(p.diskActive)),
      Field("maximum_disk_latency_ms", Real(p.diskLatency)),
      Field("maximum_disk_queue_length", Real(p.diskQueue)),
      Field("maximum_ssd_active_ratio", Real(p.ssdActive)),
      Field("maximum_ssd_latency_ms", Real(p.ssdLatency)),
      Field("maximum_hdd_active_ratio", Real(p.hddActive)),
      Field("maximum_hdd_latency_ms", Real(p.hddLatency)),
      Field("page_reads_per_sec", Real(p.pageReads)),
      Field("development_cpu_percent", Real(p.developmentCpu)),
      Field("development_working_set_bytes", Natural(p.developmentWorkingSet)),
      Field("top_background_io_process", Text(p.topProcess)),
      Field("top_background_io_bytes_per_sec", Real(p.topIo)) ]
  }

  function PointValue(p: BenchmarkPoint): Value { LinesObject(PointFields(p), "  ") }

  function ActionFields(a: ExecutedAction): seq<Field> {
    [ Field("id", Text(a.action.id)),
      Field("type", Name(ActionTypeName(a.action.kind))),
      Field("risk", Name(RiskName(a.action.risk))),
      Field("pid", Natural(a.action.pid)),
      Field("expected_start_time_100ns", Natural(a.action.startTime)),
      Field("process_name", Text(a.action.processName)),
      Field("source_priority", Natural(a.action.sourcePriority)),
      Field("target_priority", Natural(a.action.targetPriority)),
      Field("timeout_ms", Natural(a.action.timeoutMs)),
      Field("service_name", Text(a.action.serviceName)),
      Field("expected_service_identity", Text(a.action.serviceIdentity)),
      Field("source_service_state", Name(ServiceStateName(a.action.sourceServiceState))),
      Field("explicit_confirmation", Flag(a.action.explicitConfirmation)),
      Field("reversible", Flag(IsReversible(a.action.kind))),
      Field("reason", Text(a.action.reason)),
      Field("state", Name(ActionStateName(a.state))),
      Field("original_priority", Natural(a.originalPriority)),
      Field("original_service_state", Name(ServiceStateName(a.originalServiceState))),
      Field("error_code", Natural(a.errorCode)),
      Field("error_message", Text(a.errorMessage)),
      Field("result_message", Text(a.resultMessage)) ]
  }

  function ActionValue(a: ExecutedAction): Value { LinesObject(ActionFields(a), "    ") }

  function ActionValues(actions: seq<ExecutedAction>): (values: seq<Value>)
    ensures |values| == |actions| && forall i | 0 <= i < |actions| :: values[i] == ActionValue(actions[i])
  {
    seq(|actions|, i requires 0 <= i < |actions| => ActionValue(actions[i]))
  }

  function SessionFields(s: Session): seq<Field> {
    [ Field("schema_version", Natural(3)),
      Field("session_id", Text(s.id)),
      Field("state", Name(SessionStateName(s.state))),
      Field("start_time", Text(s.startTime)),
      Field("baseline", Nested(PointValue(s.baseline))),
      Field("actions", Nested(Listed(ActionValues(s.actions)))) ]
  }

  function SessionValue(s: Session): Value { LinesObject(SessionFields(s), "") }

  /** SessionManager::Serialize. */
  function Serialized(s: Session): string { Emit(SessionValue(s), "\n") }

  // ----- Printed sessions are valid JSON, and their fields read back -----

  lemma PointNames(p: BenchmarkPoint)
    ensures Named(PointFields(p), POINT_KEYS)
  {
  }

  lemma PointCells(p: BenchmarkPoint, d: nat)
    requires d <= MAXIMUM_DEPTH
    ensures CellsOk(PointFields(p), d)
  {
  }

  lemma PointOk(p: BenchmarkPoint, d: nat)
    requires d < MAXIMUM_DEPTH
    ensures ValueOk(PointValue(p), d)
  {
    hide PointFields, AllWords, Distinct, AllWs;
    PointNames(p);
    PointCells(p, d + 1);
    PointKeysAreDistinct();
    PointKeysAreWords();
    SpacesAreWs();
    LinesObjectOk(PointFields(p), POINT_KEYS, "  ", d);
  }

  lemma PointReads(p: BenchmarkPoint)
    ensures forall i | 0 <= i < |POINT_KEYS| ::
              Reads(JsonFields.Text(PointValue(p)), POINT_KEYS[i], PointFields(p)[i].cell)
  {
    hide PointFields, AllWords, Distinct, AllWs;
    PointNames(p);
    PointCells(p, 1);
    PointKeysAreDistinct();
    PointKeysAreWords();
    SpacesAreWs();
    LinesRead(PointFields(p), POINT_KEYS, "  ", "");
  }

  lemma ActionTypeIsWord(k: ActionType)
    ensures IsWord(ActionTypeName(k))
  {
    hide IsWord;
    ActionTypeNamesAreWords();
    var i :=
      if k.GracefulCloseProcess? then 0 else if k.TerminateProcess? then 1 else if k.SetPriorityClass? then 2
      else if k.StopServiceTemporary? then 3 else if k.StartServiceAction? then 4
      else if k.DisableStartupEntry? then 5 else 6;
    assert ACTION_TYPE_NAMES[i] == ActionTypeName(k);
  }

  lemma RiskIsWord(r: ActionRisk)
    ensures IsWord(RiskName(r))
  {
    hide IsWord;
    RiskNamesAreWords();
    var i := if r.Safe? then 0 else if r.Low? then 1 else if r.Medium? then 2 else if r.High? then 3 else 4;
    assert RISK_NAMES[i] == RiskName(r);
  }

  lemma ActionStateIsWord(s: ActionState)
    ensures IsWord(ActionStateName(s))
  {
    hide IsWord;
    ActionStateNamesAreWords();
    var i :=
      if s.Planned? then 0 else if s.Applied? then 1 else if s.Completed? then 2 else if s.RolledBack? then 3
      else if s.Uncertain? then 4 else if s.Failed? then 5 else 6;
    assert ACTION_STATE_NAMES[i] == ActionStateName(s);
  }

  lemma ServiceStateIsWord(s: ServiceState)
    ensures IsWord(ServiceStateName(s))
  {
    hide IsWord;
    ServiceStateNamesAreWords();
    var i :=
      if s.Stopped? then 0 else if s.StartPending? then 1 else if s.StopPending? then 2 else if s.Running? then 3
      else if s.ContinuePending? then 4 else if s.PausePending? then 5 else if s.Paused? then 6 else 7;
    assert SERVICE_STATE_NAMES[i] == ServiceStateName(s);
  }

  lemma SessionStateIsWord(s: SessionState)
    ensures IsWord(SessionStateName(s))
  {
    hide IsWord;
    SessionStateNamesAreWords();
    var i := if s.Active? then 0 else if s.Recovering? then 1 else if s.Completed? then 2 else 3;
    assert SESSION_STATE_NAMES[i] == SessionStateName(s);
  }

  lemma ActionNames(a: ExecutedAction)
    ensures Named(ActionFields(a), ACTION_KEYS)
  {
    hide ActionTypeName, RiskName, ServiceStateName, ActionStateName;
  }

  lemma ActionCells(a: ExecutedAction, d: nat)
    requires d <= MAXIMUM_DEPTH
    ensures CellsOk(ActionFields(a), d)
  {
    hide ActionTypeName, RiskName, ServiceStateName, ActionStateName, IsWord;
    ActionTypeIsWord(a.action.kind);
    RiskIsWord(a.action.risk);
    ActionStateIsWord(a.state);
    ServiceStateIsWord(a.action.sourceServiceState);
    ServiceStateIsWord(a.originalServiceState);
  }

  lemma ActionOk(a: ExecutedAction, d: nat)
    requires d < MAXIMUM_DEPTH
    ensures ValueOk(ActionValue(a), d)
  {
    hide ActionFields, AllWords, Distinct, AllWs;
    ActionNames(a);
    ActionCells(a, d + 1);
    ActionKeysAreDistinct();
    ActionKeysAreWords();
    SpacesAreWs();
    LinesObjectOk(ActionFields(a), ACTION_KEYS, "    ", d);
  }

  lemma ActionReads(a: ExecutedAction)
    ensures forall i | 0 <= i < |ACTION_KEYS| ::
              Reads(JsonFields.Text(ActionValue(a)), ACTION_KEYS[i], ActionFields(a)[i].cell)
  {
    hide ActionFields, AllWords, Distinct, AllWs;
    ActionNames(a);
    ActionCells(a, 1);
    ActionKeysAreDistinct();
    ActionKeysAreWords();
    SpacesAreWs();
    LinesRead(ActionFields(a), ACTION_KEYS, "    ", "");
  }

  lemma ActionValuesOk(actions: seq<ExecutedAction>, d: nat)
    requires d < MAXIMUM_DEPTH
    ensures ObjectsOk(ActionValues(actions), d)
  {
    hide ActionFields, ValueOk, Lines;
    forall i | 0 <= i < |actions| ensures ValueOk(ActionValue(actions[i]), d) {
      ActionOk(actions[i], d);
    }
  }

  lemma SessionNames(s: Session)
    ensures Named(SessionFields(s), SESSION_KEYS)
  {
    hide SessionStateName, PointValue, Listed;
  }

  lemma SessionCells(s: Session, d: nat)
    requires d <= 8
    ensures CellsOk(SessionFields(s), d)
  {
    hide SessionStateName, IsWord, PointFields, ActionValues, ValueOk, ObjectsOk, ListedItems;
    SessionStateIsWord(s.state);
    PointOk(s.baseline, d);
    ActionValuesOk(s.actions, d + 1);
    ListedOk(ActionValues(s.actions), d);
  }

  /** JsonSyntaxValidator accepts every printed session. */
  lemma SessionIsObjectText(s: Session)
    ensures ValueOk(SessionValue(s), 0) && JsonSyntax.IsObjectText(Serialized(s))
  {
    hide SessionFields, AllWords, Distinct, ValueOk;
    SessionNames(s);
    SessionCells(s, 1);
    SessionKeysAreDistinct();
    SessionKeysAreWords();
    SpacesAreWs();
    LinesObjectOk(SessionFields(s), SESSION_KEYS, "", 0);
    var t := JsonSyntax.Document(false, "", SessionValue(s), "\n");
    assert JsonSyntax.DocumentText(t) == Serialized(s);
    assert JsonSyntax.DocumentOk(t);
  }

  lemma SessionReads(s: Session)
    ensures forall i | 0 <= i < |SESSION_KEYS| :: Reads(Serialized(s), SESSION_KEYS[i], SessionFields(s)[i].cell)
  {
    hide SessionFields, AllWords, Distinct, AllWs;
    SessionNames(s);
    SessionCells(s, 1);
    SessionKeysAreDistinct();
    SessionKeysAreWords();
    SpacesAreWs();
    LinesRead(SessionFields(s), SESSION_KEYS, "", "\n");
  }

  // ----- The loader -----

  function Or<T>(value: Option<T>, fallback: T): T {
    if value.Some? then value.value else fallback
  }

  predicate AtMost(value: Option<int>, bound: int) { value.Some? ==> value.value <= bound }

  /** The baseline, with the checks on its sample counts; fields later schemas added may be missing. */
  /** How many samples the baseline rests on; old files do not say. */
  datatype Coverage = Coverage(
    timestamp: Option<string>, samples: Option<u64>, span: Option<u64>, process: Option<u64>, tcp: Option<u64>,
    protection: Option<u64>)

  function CoverageIn(b: string): Coverage {
    hide StringOf, IntegerOf, DoubleOf;
    Coverage(
      StringOf(b, "timestamp"), IntegerOf(b, "sample_count"), IntegerOf(b, "observed_span_ms"),
      IntegerOf(b, "process_inventory_complete_samples"), IntegerOf(b, "tcp_inventory_complete_samples"),
      IntegerOf(b, "protection_inventory_complete_samples"))
  }

  predicate CoverageOk(c: Coverage) {
    var samples := Or(c.samples, 1);
    && c.samples != Some(0) && AtMost(c.process, samples) && AtMost(c.tcp, samples) && AtMost(c.protection, samples)
    && AtMost(c.protection, Or(c.process, 0)) && AtMost(c.protection, Or(c.tcp, 0))
  }

  /** The measurements every file has. */
  datatype Basics = Basics(
    cpu: Option<Double>, available: Option<u64>, commit: Option<Double>, active: Option<Double>,
    latency: Option<Double>)

  function BasicsIn(b: string): Basics {
    hide StringOf, IntegerOf, DoubleOf;
    Basics(DoubleOf(b, "cpu_percent"), IntegerOf(b, "available_memory_bytes"), DoubleOf(b, "commit_ratio"),
           DoubleOf(b, "maximum_disk_active_ratio"), DoubleOf(b, "maximum_disk_latency_ms"))
  }

  /** The measurements old files lack. */
  datatype Extras = Extras(
    queue: Option<Double>, ssdActive: Option<Double>, ssdLatency: Option<Double>, hddActive: Option<Double>,
    hddLatency: Option<Double>, pageReads: Option<Double>, developmentCpu: Option<Double>,
    developmentWorkingSet: Option<u64>, topProcess: Option<string>, topIo: Option<Double>)

  function ExtrasIn(b: string): Extras {
    hide StringOf, IntegerOf, DoubleOf;
    Extras(
      DoubleOf(b, "maximum_disk_queue_length"), DoubleOf(b, "maximum_ssd_active_ratio"),
      DoubleOf(b, "maximum_ssd_latency_ms"), DoubleOf(b, "maximum_hdd_active_ratio"),
      DoubleOf(b, "maximum_hdd_latency_ms"), DoubleOf(b, "page_reads_per_sec"), DoubleOf(b, "development_cpu_percent"),
      IntegerOf(b, "development_working_set_bytes"), StringOf(b, "top_background_io_process"),
      DoubleOf(b, "top_background_io_bytes_per_sec"))
  }

  function PointFrom(c: Coverage, m: Basics, e: Extras): Option<BenchmarkPoint> {
    if c.timestamp.None? || m.cpu.None? || m.available.None? || m.commit.None? || m.active.None? || m.latency.None?
       || !CoverageOk(c)
    then None
    else
      Some(BenchmarkPoint(
             c.timestamp.value, Or(c.samples, 1), Or(c.span, 0), Or(c.process, 0), Or(c.tcp, 0), Or(c.protection, 0),
             m.cpu.value, m.available.value, m.commit.value, m.active.value, m.latency.value, Or(e.queue, ZERO),
             Or(e.ssdActive, ZERO), Or(e.ssdLatency, ZERO), Or(e.hddActive, ZERO), Or(e.hddLatency, ZERO),
             Or(e.pageReads, ZERO), Or(e.developmentCpu, ZERO), Or(e.developmentWorkingSet, 0), Or(e.topProcess, ""),
             Or(e.topIo, ZERO)))
  }

  function ReadPoint(b: string): Option<BenchmarkPoint> {
    PointFrom(CoverageIn(b), BasicsIn(b), ExtrasIn(b))
  }

  const MAXIMUM_32: nat := 0xffff_ffff

  /** The texts of an action object. */
  datatype ActionWords = ActionWords(
    id: Option<string>, kind: Option<string>, risk: Option<string>, name: Option<string>, reason: Option<string>,
    state: Option<string>, errorMessage: Option<string>, resultMessage: Option<string>)

  function TextsIn(o: string): ActionWords {
    hide StringOf;
    ActionWords(
      StringOf(o, "id"), StringOf(o, "type"), StringOf(o, "risk"), StringOf(o, "process_name"), StringOf(o, "reason"),
      StringOf(o, "state"), StringOf(o, "error_message"), StringOf(o, "result_message"))
  }

  datatype ActionNumbers = ActionNumbers(
    pid: Option<u64>, expected: Option<u64>, source: Option<u64>, target: Option<u64>, timeout: Option<u64>,
    original: Option<u64>, errorCode: Option<u64>)

  function NumbersIn(o: string): ActionNumbers {
    hide IntegerOf;
    ActionNumbers(
      IntegerOf(o, "pid"), IntegerOf(o, "expected_start_time_100ns"), IntegerOf(o, "source_priority"),
      IntegerOf(o, "target_priority"), IntegerOf(o, "timeout_ms"), IntegerOf(o, "original_priority"),
      IntegerOf(o, "error_code"))
  }

  /** What only service actions, and only files of the third schema, need. */
  datatype ServiceParts = ServiceParts(
    name: Option<string>, identity: Option<string>, sourceState: Option<string>, confirmation: Option<bool>,
    originalState: Option<string>)

  function ServiceIn(o: string): ServiceParts {
    hide StringOf, BoolOf;
    ServiceParts(
      StringOf(o, "service_name"), StringOf(o, "expected_service_identity"), StringOf(o, "source_service_state"),
      BoolOf(o, "explicit_confirmation"), StringOf(o, "original_service_state"))
  }

  /** The checks that keep out everything the executor could not have recorded. */
  function ActionFrom(t: ActionWords, n: ActionNumbers, v: ServiceParts, schema: nat): Option<ExecutedAction> {
    var id :- t.id;
    var typeName :- t.kind;
    var riskName :- t.risk;
    var pid :- n.pid;
    var expected :- n.expected;
    var name :- t.name;
    var target :- n.target;
    var reason :- t.reason;
    var stateName :- t.state;
    var original :- n.original;
    var errorCode :- n.errorCode;
    var errorMessage :- t.errorMessage;
    var kind :- ActionTypeFrom(typeName);
    var risk :- RiskFrom(riskName);
    var state :- ActionStateFrom(stateName);
    var source, timeout, resultMessage := n.source, n.timeout, t.resultMessage;
    var sourceState := if v.sourceState.Some? then ServiceStateFrom(v.sourceState.value) else None;
    var originalState := if v.originalState.Some? then ServiceStateFrom(v.originalState.value) else None;
    var currentFields := schema == 1 || (source.Some? && timeout.Some? && resultMessage.Some?);
    var schemaThreeFields :=
      schema != 3 || (v.name.Some? && v.identity.Some? && sourceState.Some? && v.confirmation.Some?
                      && originalState.Some?);
    var priorityAction := kind == SetPriorityClass && pid > 0 && expected > 0 && risk == Safe;
    var gracefulAction :=
      schema >= 2 && kind == GracefulCloseProcess && pid > 0 && expected > 0 && risk == ActionRisk.Low
      && timeout.Some? && 100 <= timeout.value <= 5000 && state != Applied && state != RolledBack;
    var serviceAction :=
      schema == 3 && kind == StopServiceTemporary && pid == 0 && expected == 0 && risk == ActionRisk.Medium
      && timeout.Some? && 1000 <= timeout.value <= 30000
      && v.name.Some? && ValidServiceName(v.name.value)
      && v.identity.Some? && ValidServiceIdentity(v.identity.value)
      && sourceState == Some(Running) && v.confirmation == Some(true) && originalState == Some(Running)
      && state != ActionState.Completed;
    if !currentFields || !schemaThreeFields
       || pid > MAXIMUM_32 || target > MAXIMUM_32 || original > MAXIMUM_32 || errorCode > MAXIMUM_32
       || !AtMost(source, MAXIMUM_32) || !AtMost(timeout, MAXIMUM_32)
       || !(priorityAction || gracefulAction || serviceAction) || (schema == 1 && !priorityAction)
    then None
    else
      Some(ExecutedAction(
             OptimizationAction(
               id, kind, risk, pid, expected, name, Or(source, original), target, Or(timeout, 2000),
               Or(v.name, ""), Or(v.identity, ""), Or(sourceState, ServiceState.Unknown), Or(v.confirmation, false),
               reason),
             state, original, Or(originalState, ServiceState.Unknown), errorCode, errorMessage, Or(resultMessage, "")))
  }

  /** One action object. */
  function ReadAction(o: string, schema: nat): Option<ExecutedAction> {
    ActionFrom(TextsIn(o), NumbersIn(o), ServiceIn(o), schema)
  }

  function ReadActions(objects: seq<string>, schema: nat): Option<seq<ExecutedAction>> {
    if objects == [] then Some([])
    else
      var first :- ReadAction(objects[0], schema);
      var rest :- ReadActions(objects[1..], schema);
      Some([first] + rest)
  }

  /** SessionManager::Deserialize. */
  function Deserialized(json: string): Option<Session> {
    if !JsonSyntax.Accepts(json) then None
    else
      var schema :- IntegerOf(json, "schema_version");
      var id :- StringOf(json, "session_id");
      var stateName :- StringOf(json, "state");
      var startTime :- StringOf(json, "start_time");
      var baselineText :- ObjectOf(json, "baseline");
      var state :- SessionStateFrom(stateName);
      var baseline :- ReadPoint(baselineText);
      if schema != 1 && schema != 2 && schema != 3 then None
      else
        var body :- ArrayBodyOf(json, "actions");
        var actions :- ReadActions(ObjectTexts(body), schema);
        Some(Session(id, state, startTime, baseline, actions))
  }

  // ----- Round trips -----

  lemma PointFieldsRead0(p: BenchmarkPoint)
    ensures var b := JsonFields.Text(PointValue(p));
            && StringOf(b, "timestamp") == Some(p.timestamp)
            && IntegerOf(b, "sample_count") == Some(p.sampleCount)
            && IntegerOf(b, "observed_span_ms") == Some(p.observedSpanMs)
            && IntegerOf(b, "process_inventory_complete_samples") == Some(p.processSamples)
            && IntegerOf(b, "tcp_inventory_complete_samples") == Some(p.tcpSamples)
  {
    hide StringOf, IntegerOf, DoubleOf, BoolOf, JsonFields.Text, PointValue, ActionValue, NumOk;
    hide ActionTypeName, RiskName, ServiceStateName, ActionStateName;
    var b := JsonFields.Text(PointValue(p));
    PointReads(p);
    assert Reads(b, POINT_KEYS[0], PointFields(p)[0].cell);
    assert Reads(b, POINT_KEYS[1], PointFields(p)[1].cell);
    assert Reads(b, POINT_KEYS[2], PointFields(p)[2].cell);
    assert Reads(b, POINT_KEYS[3], PointFields(p)[3].cell);
    assert Reads(b, POINT_KEYS[4], PointFields(p)[4].cell);
  }

  lemma PointFieldsRead1(p: BenchmarkPoint)
    ensures var b := JsonFields.Text(PointValue(p));
            && IntegerOf(b, "protection_inventory_complete_samples") == Some(p.protectionSamples)
            && DoubleOf(b, "cpu_percent") == Some(p.cpuPercent)
            && IntegerOf(b, "available_memory_bytes") == Some(p.availableMemory)
            && DoubleOf(b, "commit_ratio") == Some(p.commitRatio)
            && DoubleOf(b, "maximum_disk_active_ratio") == Some(p.diskActive)
  {
    hide StringOf, IntegerOf, DoubleOf, BoolOf, JsonFields.Text, PointValue, ActionValue, NumOk;
    hide ActionTypeName, RiskName, ServiceStateName, ActionStateName;
    var b := JsonFields.Text(PointValue(p));
    PointReads(p);
    assert Reads(b, POINT_KEYS[5], PointFields(p)[5].cell);
    assert Reads(b, POINT_KEYS[6], PointFields(p)[6].cell);
    assert Reads(b, POINT_KEYS[7], PointFields(p)[7].cell);
    assert Reads(b, POINT_KEYS[8], PointFields(p)[8].cell);
    assert Reads(b, POINT_KEYS[9], PointFields(p)[9].cell);
  }

  lemma PointFieldsRead2(p: BenchmarkPoint)
    ensures var b := JsonFields.Text(PointValue(p));
            && DoubleOf(b, "maximum_disk_latency_ms") == Some(p.diskLatency)
            && DoubleOf(b, "maximum_disk_queue_length") == Some(p.diskQueue)
            && DoubleOf(b, "maximum_ssd_active_ratio") == Some(p.ssdActive)
            && DoubleOf(b, "maximum_ssd_latency_ms") == Some(p.ssdLatency)
            && DoubleOf(b, "maximum_hdd_active_ratio") == Some(p.hddActive)
  {
    hide StringOf, IntegerOf, DoubleOf, BoolOf, JsonFields.Text, PointValue, ActionValue, NumOk;
    hide ActionTypeName, RiskName, ServiceStateName, ActionStateName;
    var b := JsonFields.Text(PointValue(p));
    PointReads(p);
    assert Reads(b, POINT_KEYS[10], PointFields(p)[10].cell);
    assert Reads(b, POINT_KEYS[11], PointFields(p)[11].cell);
    assert Reads(b, POINT_KEYS[12], PointFields(p)[12].cell);
    assert Reads(b, POINT_KEYS[13], PointFields(p)[13].cell);
    assert Reads(b, POINT_KEYS[14], PointFields(p)[14].cell);
  }

  lemma PointFieldsRead3(p: BenchmarkPoint)
    ensures var b := JsonFields.Text(PointValue(p));
            && DoubleOf(b, "maximum_hdd_latency_ms") == Some(p.hddLatency)
            && DoubleOf(b, "page_reads_per_sec") == Some(p.pageReads)
            && DoubleOf(b, "development_cpu_percent") == Some(p.developmentCpu)
            && IntegerOf(b, "development_working_set_bytes") == Some(p.developmentWorkingSet)
            && StringOf(b, "top_background_io_process") == Some(p.topProcess)
            && DoubleOf(b, "top_background_io_bytes_per_sec") == Some(p.topIo)
  {
    hide StringOf, IntegerOf, DoubleOf, BoolOf, JsonFields.Text, PointValue, ActionValue, NumOk;
    hide ActionTypeName, RiskName, ServiceStateName, ActionStateName;
    var b := JsonFields.Text(PointValue(p));
    PointReads(p);
    assert Reads(b, POINT_KEYS[15], PointFields(p)[15].cell);
    assert Reads(b, POINT_KEYS[16], PointFields(p)[16].cell);
    assert Reads(b, POINT_KEYS[17], PointFields(p)[17].cell);
    assert Reads(b, POINT_KEYS[18], PointFields(p)[18].cell);
    assert Reads(b, POINT_KEYS[19], PointFields(p)[19].cell);
    assert Reads(b, POINT_KEYS[20], PointFields(p)[20].cell);
  }

  /** The baseline reads back exactly when its sample counts are consistent, and then unchanged. */
  lemma PointRoundTrip(p: BenchmarkPoint)
    ensures ReadPoint(JsonFields.Text(PointValue(p))) == if PointStorable(p) then Some(p) else None
  {
    hide StringOf, IntegerOf, DoubleOf, JsonFields.Text, PointValue;
    PointFieldsRead0(p);
    PointFieldsRead1(p);
    PointFieldsRead2(p);
    PointFieldsRead3(p);
  }

  lemma ActionFieldsRead0(a: ExecutedAction)
    ensures var b := JsonFields.Text(ActionValue(a));
            && StringOf(b, "id") == Some(a.action.id)
            && StringOf(b, "type") == Some(ActionTypeName(a.action.kind))
            && StringOf(b, "risk") == Some(RiskName(a.action.risk))
            && IntegerOf(b, "pid") == Some(a.action.pid)
            && IntegerOf(b, "expected_start_time_100ns") == Some(a.action.startTime)
  {
    hide StringOf, IntegerOf, DoubleOf, BoolOf, JsonFields.Text, PointValue, ActionValue, NumOk;
    hide ActionTypeName, RiskName, ServiceStateName, ActionStateName;
    var b := JsonFields.Text(ActionValue(a));
    ActionReads(a);
    assert Reads(b, ACTION_KEYS[0], ActionFields(a)[0].cell);
    assert Reads(b, ACTION_KEYS[1], ActionFields(a)[1].cell);
    assert Reads(b, ACTION_KEYS[2], ActionFields(a)[2].cell);
    assert Reads(b, ACTION_KEYS[3], ActionFields(a)[3].cell);
    assert Reads(b, ACTION_KEYS[4], ActionFields(a)[4].cell);
  }

  lemma ActionFieldsRead1(a: ExecutedAction)
    ensures var b := JsonFields.Text(ActionValue(a));
            && StringOf(b, "process_name") == Some(a.action.processName)
            && IntegerOf(b, "source_priority") == Some(a.action.sourcePriority)
            && IntegerOf(b, "target_priority") == Some(a.action.targetPriority)
            && IntegerOf(b, "timeout_ms") == Some(a.action.timeoutMs)
            && StringOf(b, "service_name") == Some(a.action.serviceName)
  {
    hide StringOf, IntegerOf, DoubleOf, BoolOf, JsonFields.Text, PointValue, ActionValue, NumOk;
    hide ActionTypeName, RiskName, ServiceStateName, ActionStateName;
    var b := JsonFields.Text(ActionValue(a));
    ActionReads(a);
    assert Reads(b, ACTION_KEYS[5], ActionFields(a)[5].cell);
    assert Reads(b, ACTION_KEYS[6], ActionFields(a)[6].cell);
    assert Reads(b, ACTION_KEYS[7], ActionFields(a)[7].cell);
    assert Reads(b, ACTION_KEYS[8], ActionFields(a)[8].cell);
    assert Reads(b, ACTION_KEYS[9], ActionFields(a)[9].cell);
  }

  lemma ActionFieldsRead2(a: ExecutedAction)
    ensures var b := JsonFields.Text(ActionValue(a));
            && StringOf(b, "expected_service_identity") == Some(a.action.serviceIdentity)
            && StringOf(b, "source_service_state") == Some(ServiceStateName(a.action.sourceServiceState))
            && BoolOf(b, "explicit_confirmation") == Some(a.action.explicitConfirmation)
            && StringOf(b, "reason") == Some(a.action.reason)
            && StringOf(b, "state") == Some(ActionStateName(a.state))
  {
    hide StringOf, IntegerOf, DoubleOf, BoolOf, JsonFields.Text, PointValue, ActionValue, NumOk;
    hide ActionTypeName, RiskName, ServiceStateName, ActionStateName;
    var b := JsonFields.Text(ActionValue(a));
    ActionReads(a);
    assert Reads(b, ACTION_KEYS[10], ActionFields(a)[10].cell);
    assert Reads(b, ACTION_KEYS[11], ActionFields(a)[11].cell);
    assert Reads(b, ACTION_KEYS[12], ActionFields(a)[12].cell);
    assert Reads(b, ACTION_KEYS[14], ActionFields(a)[14].cell);
    assert Reads(b, ACTION_KEYS[15], ActionFields(a)[15].cell);
  }

  lemma ActionFieldsRead3(a: ExecutedAction)
    ensures var b := JsonFields.Text(ActionValue(a));
            && IntegerOf(b, "original_priority") == Some(a.originalPriority)
            && StringOf(b, "original_service_state") == Some(ServiceStateName(a.originalServiceState))
            && IntegerOf(b, "error_code") == Some(a.errorCode)
            && StringOf(b, "error_message") == Some(a.errorMessage)
            && StringOf(b, "result_message") == Some(a.resultMessage)
  {
    hide StringOf, IntegerOf, DoubleOf, BoolOf, JsonFields.Text, PointValue, ActionValue, NumOk;
    hide ActionTypeName, RiskName, ServiceStateName, ActionStateName;
    var b := JsonFields.Text(ActionValue(a));
    ActionReads(a);
    assert Reads(b, ACTION_KEYS[16], ActionFields(a)[16].cell);
    assert Reads(b, ACTION_KEYS[17], ActionFields(a)[17].cell);
    assert Reads(b, ACTION_KEYS[18], ActionFields(a)[18].cell);
    assert Reads(b, ACTION_KEYS[19], ActionFields(a)[19].cell);
    assert Reads(b, ACTION_KEYS[20], ActionFields(a)[20].cell);
  }

  lemma ActionRoundTrip(a: ExecutedAction)
    ensures ReadAction(JsonFields.Text(ActionValue(a)), 3) == if ActionStorable(a) then Some(a) else None
  {
    hide StringOf, IntegerOf, BoolOf, JsonFields.Text, ActionValue, ActionTypeFrom, RiskFrom, ActionStateFrom,
      ServiceStateFrom, ActionTypeName, RiskName, ActionStateName, ServiceStateName, ValidServiceName,
      ValidServiceIdentity;
    ActionFieldsRead0(a);
    ActionFieldsRead1(a);
    ActionFieldsRead2(a);
    ActionFieldsRead3(a);
    NamesReadBack(SafeMode, a.action.kind, a.action.risk, a.state, a.action.sourceServiceState);
    NamesReadBack(SafeMode, a.action.kind, a.action.risk, a.state, a.originalServiceState);
  }

  function ActionTexts(actions: seq<ExecutedAction>): seq<string> { Texts(ListedItems(ActionValues(actions))) }

  lemma FirstActionText(actions: seq<ExecutedAction>)
    requires actions != []
    ensures ActionTexts(actions) != [] && ActionTexts(actions)[0] == JsonFields.Text(ActionValue(actions[0]))
    ensures ActionTexts(actions)[1..] == ActionTexts(actions[1..])
  {
    hide ActionValue, JsonFields.Text;
    assert ActionValues(actions)[1..] == ActionValues(actions[1..]);
  }

  lemma AllStorableSplits(actions: seq<ExecutedAction>)
    requires actions != []
    ensures AllStorable(actions) <==> ActionStorable(actions[0]) && AllStorable(actions[1..])
  {
    hide ActionStorable;
    assert forall i | 1 <= i < |actions| :: actions[i] == actions[1..][i - 1];
    assert forall i | 0 <= i < |actions[1..]| :: actions[1..][i] == actions[i + 1];
  }

  lemma {:induction false} ActionsRoundTrip(actions: seq<ExecutedAction>)
    ensures ReadActions(Texts(ListedItems(ActionValues(actions))), 3)
         == if AllStorable(actions) then Some(actions) else None
  {
    hide ReadAction, ActionStorable, ActionValue, JsonFields.Text;
    if actions != [] {
      ActionRoundTrip(actions[0]);
      ActionsRoundTrip(actions[1..]);
      assert ActionTexts(actions[1..]) == Texts(ListedItems(ActionValues(actions[1..])));
      assert ActionTexts(actions) == Texts(ListedItems(ActionValues(actions)));
      hide AllStorable, ActionTexts, Texts, ListedItems, ActionValues;
      FirstActionText(actions);
      AllStorableSplits(actions);
      assert actions == [actions[0]] + actions[1..];
    }
  }

  lemma ActionsBodyReads(s: Session)
    ensures var body := ArrayBodyOf(Serialized(s), "actions");
            body.Some? && ObjectTexts(body.value) == Texts(ListedItems(ActionValues(s.actions)))
  {
    hide ValueOk, Emit, ActionValues, PointFields, SessionStateName, PointValue, ArrayBodyOf, ObjectTexts, Listed,
      ObjectsOk;
    SessionIsObjectText(s);
    ActionValuesOk(s.actions, 2);
    var v, values := SessionValue(s), ActionValues(s.actions);
    assert Serialized(s) == "" + Serialized(s) && AllWs("");
    assert v.members[5].key == "actions" && v.members[5].value == Listed(values);
    assert HasField(Serialized(s), v, 5, "actions", Listed(values));
    ListReads(Serialized(s), v, 5, "actions", values);
  }

  lemma SessionFieldsRead(s: Session)
    ensures var json := Serialized(s);
            && IntegerOf(json, "schema_version") == Some(3)
            && StringOf(json, "session_id") == Some(s.id)
            && StringOf(json, "state") == Some(SessionStateName(s.state))
            && StringOf(json, "start_time") == Some(s.startTime)
            && ObjectOf(json, "baseline") == Some(JsonFields.Text(PointValue(s.baseline)))
  {
    hide StringOf, IntegerOf, DelimitedText, JsonFields.Text, SessionStateName, Serialized, PointFields, Listed;
    SessionReads(s);
    var json := Serialized(s);
    assert Reads(json, SESSION_KEYS[0], SessionFields(s)[0].cell);
    assert Reads(json, SESSION_KEYS[1], SessionFields(s)[1].cell);
    assert Reads(json, SESSION_KEYS[2], SessionFields(s)[2].cell);
    assert Reads(json, SESSION_KEYS[3], SessionFields(s)[3].cell);
    assert Reads(json, SESSION_KEYS[4], SessionFields(s)[4].cell);
  }

  /**
   * The loader accepts a printed session exactly when the session is storable, and then gives back the same session,
   * every field of every action exact.
   */
  lemma SessionRoundTrip(s: Session)
    ensures Deserialized(Serialized(s)) == if Storable(s) then Some(s) else None
  {
    SessionIsObjectText(s);
    JsonSyntax.AcceptsExactlyObjectTexts(Serialized(s));
    hide StringOf, IntegerOf, ObjectOf, ArrayBodyOf, ObjectTexts, JsonFields.Text, ReadPoint, ReadActions, Serialized,
      PointStorable, AllStorable, PointValue, SessionStateName, SessionStateFrom, JsonSyntax.Accepts,
      JsonSyntax.IsObjectText;
    SessionFieldsRead(s);
    PointRoundTrip(s.baseline);
    ActionsBodyReads(s);
    ActionsRoundTrip(s.actions);
    NamesReadBack(s.state, SetPriorityClass, Safe, Planned, Running);
  }

  // ----- What would lock the program out of its own file -----

  /** A record that lacks nothing but, perhaps, a service name the loader accepts. */
  predicate StorableButForName(a: ExecutedAction) {
    ActionStorable(if a.action.kind.StopServiceTemporary? then a.(action := a.action.(serviceName := "w")) else a)
  }

  /** Nothing checks the name before the session is saved, but the loader insists on it. */
  lemma LoadedExactlyWithValidNames(s: Session)
    requires PointStorable(s.baseline) && forall a | a in s.actions :: StorableButForName(a)
    ensures Deserialized(Serialized(s)) == Some(s)
            <==> forall a | a in s.actions && a.action.kind.StopServiceTemporary? ::
                   ValidServiceName(a.action.serviceName)
  {
    hide Deserialized, Serialized;
    SessionRoundTrip(s);
    forall i | 0 <= i < |s.actions|
      ensures ActionStorable(s.actions[i])
              <==> (s.actions[i].action.kind.StopServiceTemporary? ==>
                      ValidServiceName(s.actions[i].action.serviceName))
    {
      assert StorableButForName(s.actions[i]);
    }
  }

  /** A name of `n` accented letters: two bytes each in UTF-8. */
  function Accents(n: nat): string {
    seq(2 * n, i requires 0 <= i < 2 * n => if i % 2 == 0 then 0xC3 as char else 0xA9 as char)
  }

  /**
   * A service name may have 256 characters, the loader takes 256 bytes: a session whose service has a name of 129
   * accented letters is saved and never loaded again.
   */
  lemma LongNameLocksOut(s: Session, a: ExecutedAction)
    requires PointStorable(s.baseline) && s.actions == [a] && StorableButForName(a)
    requires a.action.kind.StopServiceTemporary? && a.action.serviceName == Accents(129)
    ensures Deserialized(Serialized(s)) == None
  {
    hide Deserialized, Serialized;
    SessionRoundTrip(s);
    assert !ActionStorable(s.actions[0]);
  }
}
