/** Completion reports: the printer that extends a printed session, and the reader that lists finished sessions. */
module ReportText {
  import opened Types
  import opened Words
  import opened JsonText
  import opened JsonScan
  import opened JsonFields
  import opened JsonLayout
  import opened SessionModel
  import opened SessionText
  import opened Completion
  import JsonSyntax

  /** The name of an enumerator. */
  type Label = s: string | IsWord(s) witness ""

  datatype ProtectedWorkload = ProtectedWorkload(
    processName: string, className: Label, protection: Label, instances: u64)

  datatype EvidenceValue =
    Signed(n: int) | Unsigned(u: u64) | Measured(x: Double) | Boolean(b: bool) | Words(text: string)

  datatype Diagnosis = Diagnosis(
    kind: string, severity: Label, confidence: Label, summary: string, evidence: Evidence)

  /** Evidence values by name, as an ordered map holds them. */
  type Evidence = e: seq<(string, EvidenceValue)> | DistinctNames(e) witness []

  predicate DistinctNames(e: seq<(string, EvidenceValue)>) {
    forall i, j | 0 <= i < j < |e| :: e[i].0 != e[j].0
  }

  const DELTA_FIELDS := 14

  /** Differences between the optimized point and the baseline, one number token a field. */
  type Delta = d: seq<Double> | |d| == DELTA_FIELDS witness seq(DELTA_FIELDS, _ => ZERO)

  /** Everything a report adds to the session it is about. */
  datatype Findings = Findings(
    phase: string, optimized: BenchmarkPoint, delta: Delta, inventoryComplete: bool,
    workloads: seq<ProtectedWorkload>, diagnoses: seq<Diagnosis>)

  // ----- The printer -----

  function SignedNum(n: int): (r: Num)
    ensures NumOk(r)
  {
    var magnitude := if n < 0 then -n else n;
    DecimalReads(magnitude);
    Num(n < 0, Decimal(magnitude), None, None)
  }

  function DeltaKey(i: nat): string
    requires i < DELTA_FIELDS
  {
    // All benchmark fields that are averages: cpu_percent to development_working_set_bytes, and the top I/O rate.
    if i < 13 then POINT_KEYS[6 + i] else POINT_KEYS[20]
  }

  function DeltaFields(d: Delta): seq<Field> {
    seq(DELTA_FIELDS, i requires 0 <= i < DELTA_FIELDS => Field(DeltaKey(i), Real(d[i])))
  }

  function WorkloadValue(w: ProtectedWorkload): Value {
    InlineObject([ Field("process_name", Text(w.processName)),
                   Field("class", Name(w.className)),
                   Field("protection", Name(w.protection)),
                   Field("instances", Natural(w.instances)) ])
  }

  function EvidenceCell(e: EvidenceValue): Cell {
    match e
    case Signed(n) => Real(SignedNum(n))
    case Unsigned(u) => Natural(u)
    case Measured(x) => Real(x)
    case Boolean(b) => Flag(b)
    case Words(text) => Text(text)
  }

  function EvidenceFields(e: Evidence): (fields: seq<Field>)
    ensures |fields| == |e|
    ensures forall i | 0 <= i < |e| :: fields[i] == Field(Escaped(e[i].0), EvidenceCell(e[i].1))
  {
    seq(|e|, i requires 0 <= i < |e| => Field(Escaped(e[i].0), EvidenceCell(e[i].1)))
  }

  function DiagnosisFields(d: Diagnosis): seq<Field> {
    [ Field("type", Text(d.kind)),
      Field("severity", Name(d.severity)),
      Field("confidence", Name(d.confidence)),
      Field("summary", Text(d.summary)),
      Field("evidence", Nested(InlineObject(EvidenceFields(d.evidence)))) ]
  }

  function DiagnosisValue(d: Diagnosis): Value { InlineObject(DiagnosisFields(d)) }

  function FailureValue(a: ExecutedAction): Value {
    InlineObject([ Field("id", Text(a.action.id)),
                   Field("type", Name(ActionTypeName(a.action.kind))),
                   Field("state", Name(ActionStateName(a.state))),
                   Field("error_code", Natural(a.errorCode)) ])
  }

  function FailureValues(actions: seq<ExecutedAction>): seq<Value> {
    if actions == [] then []
    else
      var a := actions[0];
      (if a.state == Failed || a.state == Rejected || a.state == Uncertain then [FailureValue(a)] else [])
      + FailureValues(actions[1..])
  }

  function RollbackFields(actions: seq<ExecutedAction>): seq<Field> {
    var t := TallyOf(actions);
    [ Field("complete", Flag(RollbackComplete(actions))),
      Field("planned", Natural(t.planned)),
      Field("applied", Natural(t.applied)),
      Field("completed_one_shot", Natural(t.completed)),
      Field("rolled_back", Natural(t.rolledBack)),
      Field("uncertain", Natural(t.uncertain)),
      Field("failed", Natural(t.failed)),
      Field("rejected", Natural(t.rejected)) ]
  }

  function RollbackValue(actions: seq<ExecutedAction>): Value { LinesObject(RollbackFields(actions), "  ") }

  function WorkloadValues(ws: seq<ProtectedWorkload>): seq<Value> {
    seq(|ws|, i requires 0 <= i < |ws| => WorkloadValue(ws[i]))
  }

  function DiagnosisValues(ds: seq<Diagnosis>): seq<Value> {
    seq(|ds|, i requires 0 <= i < |ds| => DiagnosisValue(ds[i]))
  }

  function FindingFields(actions: seq<ExecutedAction>, f: Findings): seq<Field> {
    [ Field("report_schema_version", Natural(1)),
      Field("measurement_phase", Text(f.phase)),
      Field("optimized", Nested(PointValue(f.optimized))),
      Field("delta", Nested(LinesObject(DeltaFields(f.delta), "  "))),
      Field("protected_workload_inventory_complete", Flag(f.inventoryComplete)),
      Field("protected_workload", Nested(Listed(WorkloadValues(f.workloads)))),
      Field("diagnoses", Nested(Listed(DiagnosisValues(f.diagnoses)))),
      Field("failed_actions", Nested(Listed(FailureValues(actions)))),
      Field("rollback", Nested(RollbackValue(actions))) ]
  }

  /** Drops the closing newline and brace, if they are there. */
  function Reopened(serialized: string): string {
    var s := if serialized != "" && serialized[|serialized| - 1] == '\n' then serialized[..|serialized| - 1]
             else serialized;
    if s != "" && s[|s| - 1] == '}' then s[..|s| - 1] else s
  }

  /** SessionManager::CompletionReport. */
  function CompletionReport(s: Session, f: Findings): string {
    Reopened(Serialized(s.(state := SessionState.Completed)))
    + ([','] + EmitMembers(Lines(FindingFields(s.actions, f), ""), "}\n"))
  }

  // ----- A report is one object -----

  function ReportFields(s: Session, f: Findings): seq<Field> {
    SessionFields(s.(state := SessionState.Completed)) + FindingFields(s.actions, f)
  }

  function ReportValue(s: Session, f: Findings): Value {
    Obj("", Lines(SessionFields(s.(state := SessionState.Completed)), "") + Lines(FindingFields(s.actions, f), ""))
  }

  /** Reopening a printed session drops exactly its closing brace and newline. */
  lemma ReopenedSession(s: Session)
    ensures Reopened(Serialized(s)) == ['{'] + EmitMembers(SessionValue(s).members, "")
  {
    hide EmitMembers, Lines, SessionFields;
    var ms := SessionValue(s).members;
    assert ['}'] + "\n" == "}\n" && "" + "}\n" == "}\n";
    MembersSplit(ms, "", "}\n");
    assert "" + EmitMembers(ms, "}\n") == EmitMembers(ms, "}\n");
    assert Serialized(s) == ['{'] + EmitMembers(ms, "") + "}\n";
  }

  lemma ReportIsOneObject(s: Session, f: Findings)
    ensures CompletionReport(s, f) == Emit(ReportValue(s, f), "\n")
  {
    hide EmitMembers, SessionFields, FindingFields, Laid, Reopened, Serialized;
    var s' := s.(state := SessionState.Completed);
    var a, b := Lines(SessionFields(s'), ""), Lines(FindingFields(s.actions, f), "");
    assert |a| == 6 && |b| == 9 by { FieldCounts(s', s.actions, f); }
    ReopenedSession(s');
    EmitJoined(a, b, "}\n");
    var tail := [','] + EmitMembers(b, "}\n");
    MembersSplit(a, "", tail);
    assert "" + tail == tail && ['}'] + "\n" == "}\n";
    assert ['{'] + EmitMembers(a, "") + tail == ['{'] + (EmitMembers(a, "") + tail);
    assert "" + EmitMembers(a + b, "}\n") == EmitMembers(a + b, "}\n");
  }

  lemma FieldCounts(s: Session, actions: seq<ExecutedAction>, f: Findings)
    ensures |SessionFields(s)| == 6 && |FindingFields(actions, f)| == 9
  {
  }

  // ----- A report is valid JSON -----

  lemma WorkloadOk(w: ProtectedWorkload, d: nat)
    requires d < MAXIMUM_DEPTH
    ensures ValueOk(WorkloadValue(w), d)
  {
    var f := [ Field("process_name", Text(w.processName)), Field("class", Name(w.className)),
               Field("protection", Name(w.protection)), Field("instances", Natural(w.instances)) ];
    WorkloadKeysAreDistinct();
    WorkloadKeysAreWords();
    assert Named(f, WORKLOAD_KEYS);
    NamedKeysAreRaw(f, WORKLOAD_KEYS);
    hide AllWords, RawKeys;
    InlineObjectOk(f, d);
  }

  lemma EvidenceOk(e: Evidence, d: nat)
    requires d < MAXIMUM_DEPTH
    ensures ValueOk(InlineObject(EvidenceFields(e)), d)
  {
    hide RawOk, Escaped;
    var f := EvidenceFields(e);
    forall i | 0 <= i < |f| ensures RawOk(f[i].key) {
      EscapedIsRaw(e[i].0);
    }
    forall i, j | 0 <= i < j < |f| ensures f[i].key != f[j].key {
      EscapedIsInjective(e[i].0, e[j].0);
    }
    InlineObjectOk(f, d);
  }

  lemma DiagnosisOk(g: Diagnosis, d: nat)
    requires d < MAXIMUM_DEPTH - 1
    ensures ValueOk(DiagnosisValue(g), d) && CellsOk(DiagnosisFields(g), d + 1)
  {
    hide EvidenceFields, AllWords, RawKeys, Laid, Distinct;
    var f := DiagnosisFields(g);
    DiagnosisKeysAreDistinct();
    DiagnosisKeysAreWords();
    EvidenceOk(g.evidence, d + 1);
    DiagnosisNamed(g);
    NamedKeysAreRaw(f, DIAGNOSIS_KEYS);
    assert CellsOk(f, d + 1) by { hide ValueOk; }
    DistinctlyNamed(f, DIAGNOSIS_KEYS);
    InlineObjectOk(f, d);
  }

  lemma DistinctlyNamed(f: seq<Field>, keys: seq<string>)
    requires Named(f, keys) && Distinct(keys)
    ensures forall i, j | 0 <= i < j < |f| :: f[i].key != f[j].key
  {
  }

  lemma DiagnosisNamed(g: Diagnosis)
    ensures Named(DiagnosisFields(g), DIAGNOSIS_KEYS)
  {
  }

  lemma FailureOk(a: ExecutedAction, d: nat)
    requires d < MAXIMUM_DEPTH
    ensures ValueOk(FailureValue(a), d)
  {
    hide ActionTypeName, ActionStateName, AllWords, RawKeys, IsWord;
    var f := [ Field("id", Text(a.action.id)), Field("type", Name(ActionTypeName(a.action.kind))),
               Field("state", Name(ActionStateName(a.state))), Field("error_code", Natural(a.errorCode)) ];
    FailureKeysAreDistinct();
    FailureKeysAreWords();
    ActionTypeIsWord(a.action.kind);
    ActionStateIsWord(a.state);
    assert Named(f, FAILURE_KEYS);
    NamedKeysAreRaw(f, FAILURE_KEYS);
    InlineObjectOk(f, d);
  }

  lemma {:induction false} FailuresOk(actions: seq<ExecutedAction>, d: nat)
    requires d < MAXIMUM_DEPTH
    ensures ObjectsOk(FailureValues(actions), d)
  {
    hide FailureValue, ValueOk;
    if actions != [] {
      FailuresOk(actions[1..], d);
      FailureOk(actions[0], d);
      assert FailureValue(actions[0]).Obj? by { FailureIsObject(actions[0]); }
    }
  }

  lemma FailureIsObject(a: ExecutedAction)
    ensures FailureValue(a).Obj?
  {
  }

  lemma WorkloadsOk(ws: seq<ProtectedWorkload>, d: nat)
    requires d < MAXIMUM_DEPTH
    ensures ObjectsOk(WorkloadValues(ws), d)
  {
    hide ValueOk, Laid;
    forall i | 0 <= i < |ws| ensures ValueOk(WorkloadValue(ws[i]), d) {
      WorkloadOk(ws[i], d);
    }
  }

  lemma DiagnosesOk(ds: seq<Diagnosis>, d: nat)
    requires d < MAXIMUM_DEPTH - 1
    ensures ObjectsOk(DiagnosisValues(ds), d)
  {
    hide ValueOk, Laid, DiagnosisFields;
    forall i | 0 <= i < |ds| ensures ValueOk(DiagnosisValue(ds[i]), d) {
      DiagnosisOk(ds[i], d);
    }
  }

  lemma RollbackNamed(actions: seq<ExecutedAction>)
    ensures Named(RollbackFields(actions), ROLLBACK_KEYS)
  {
    hide Count, RollbackComplete;
  }

  lemma RollbackCells(actions: seq<ExecutedAction>, d: nat)
    requires |actions| <= MAXIMUM_UNSIGNED && d <= MAXIMUM_DEPTH
    ensures CellsOk(RollbackFields(actions), d)
  {
    hide Count, RollbackComplete;
    TallyIsTotal(actions);
  }

  lemma RollbackOk(actions: seq<ExecutedAction>, d: nat)
    requires |actions| <= MAXIMUM_UNSIGNED && d < MAXIMUM_DEPTH
    ensures ValueOk(RollbackValue(actions), d)
  {
    hide RollbackFields, AllWords, Distinct, AllWs;
    RollbackKeysAreDistinct();
    RollbackKeysAreWords();
    RollbackNamed(actions);
    RollbackCells(actions, d + 1);
    SpacesAreWs();
    LinesObjectOk(RollbackFields(actions), ROLLBACK_KEYS, "  ", d);
  }

  const DELTA_KEYS: seq<string> := seq(DELTA_FIELDS, i requires 0 <= i < DELTA_FIELDS => DeltaKey(i))

  lemma DeltaOk(delta: Delta, d: nat)
    requires d < MAXIMUM_DEPTH
    ensures ValueOk(LinesObject(DeltaFields(delta), "  "), d)
  {
    PointKeysAreDistinct();
    PointKeysAreWords();
    hide IsWord;
    assert |POINT_KEYS| == 21;
    assert Named(DeltaFields(delta), DELTA_KEYS) && AllWords(DELTA_KEYS) && Distinct(DELTA_KEYS);
    assert CellsOk(DeltaFields(delta), d + 1);
    hide DeltaFields, AllWords, Distinct, AllWs;
    SpacesAreWs();
    LinesObjectOk(DeltaFields(delta), DELTA_KEYS, "  ", d);
  }

  lemma FindingCells(actions: seq<ExecutedAction>, f: Findings, d: nat)
    requires |actions| <= MAXIMUM_UNSIGNED && d <= 8
    ensures CellsOk(FindingFields(actions, f), d)
  {
    hide ValueOk, ListedItems, WorkloadValues, DiagnosisValues, FailureValues, PointFields, DeltaFields, Lines,
      RollbackFields, Laid, ObjectsOk;
    PointOk(f.optimized, d);
    DeltaOk(f.delta, d);
    WorkloadsOk(f.workloads, d + 1);
    ListedOk(WorkloadValues(f.workloads), d);
    DiagnosesOk(f.diagnoses, d + 1);
    ListedOk(DiagnosisValues(f.diagnoses), d);
    FailuresOk(actions, d + 1);
    ListedOk(FailureValues(actions), d);
    RollbackOk(actions, d);
  }

  lemma ReportNamed(s: Session, f: Findings)
    ensures Named(ReportFields(s, f), REPORT_KEYS)
  {
    hide Listed, PointValue, LinesObject, RollbackValue, SessionStateName, WorkloadValues, DiagnosisValues,
      FailureValues, ActionValues, DeltaFields;
  }

  lemma {:induction false} MembersJoin(a: seq<Member>, b: seq<Member>, d: nat)
    requires MembersOk(a, d) && MembersOk(b, d)
    ensures MembersOk(a + b, d)
  {
    hide ValueOk, MemberSpacing, RawOk;
    if a == [] {
      assert a + b == b;
    } else {
      assert (a + b)[0] == a[0] && (a + b)[1..] == a[1..] + b;
      MembersJoin(a[1..], b, d);
    }
  }

  lemma ReportCells(s: Session, f: Findings)
    requires |s.actions| <= MAXIMUM_UNSIGNED
    ensures CellsOk(ReportFields(s, f), 1) && MadeOf(ReportValue(s, f), ReportFields(s, f))
  {
    hide SessionFields, FindingFields, CellOk;
    SessionCells(s.(state := SessionState.Completed), 1);
    FindingCells(s.actions, f, 1);
  }

  lemma ReportMembersOk(s: Session, f: Findings)
    requires |s.actions| <= MAXIMUM_UNSIGNED
    ensures MembersOk(ReportValue(s, f).members, 1)
  {
    hide SessionFields, FindingFields, AllWords, AllWs, RawOk, CellsOk;
    var s' := s.(state := SessionState.Completed);
    var a, b := SessionFields(s'), FindingFields(s.actions, f);
    ReportNamed(s, f);
    ReportKeysAreWords();
    NamedKeysAreRaw(a + b, REPORT_KEYS);
    assert RawKeys(a) by { assert forall i | 0 <= i < |a| :: (a + b)[i] == a[i]; }
    assert RawKeys(b) by { assert forall i | 0 <= i < |b| :: (a + b)[|a| + i] == b[i]; }
    SessionCells(s', 1);
    FindingCells(s.actions, f, 1);
    SpacesAreWs();
    hide RawKeys, Lines, MembersOk;
    LinesOk(a, "", 1);
    LinesOk(b, "", 1);
    MembersJoin(Lines(a, ""), Lines(b, ""), 1);
  }

  lemma ReportKeysFresh(s: Session, f: Findings)
    requires |s.actions| <= MAXIMUM_UNSIGNED
    ensures FreshKeys(ReportValue(s, f).members, {})
  {
    hide ReportFields, ReportValue, CellsOk;
    ReportCells(s, f);
    ReportNamed(s, f);
    ReportKeysAreDistinct();
    FreshKeysMeansDistinct(ReportValue(s, f).members, {});
  }

  lemma ReportOk(s: Session, f: Findings)
    requires |s.actions| <= MAXIMUM_UNSIGNED
    ensures ReportValue(s, f).Obj? && ValueOk(ReportValue(s, f), 0)
  {
    hide MembersOk, FreshKeys, ValueOk, SessionFields, FindingFields, Lines;
    ReportMembersOk(s, f);
    ReportKeysFresh(s, f);
    ObjectOk(ReportValue(s, f).members, 0);
  }

  lemma ObjectOk(members: seq<Member>, d: nat)
    requires d < MAXIMUM_DEPTH && MembersOk(members, d + 1) && FreshKeys(members, {})
    ensures ValueOk(Obj("", members), d)
  {
    hide MembersOk, FreshKeys;
  }

  /** JsonSyntaxValidator accepts every completion report. */
  lemma ReportIsObjectText(s: Session, f: Findings)
    requires |s.actions| <= MAXIMUM_UNSIGNED
    ensures JsonSyntax.IsObjectText(CompletionReport(s, f))
  {
    hide ValueOk, ReportFields, CompletionReport, ReportValue, Emit;
    ReportOk(s, f);
    ReportIsOneObject(s, f);
    SpacesAreWs();
    var t := JsonSyntax.Document(false, "", ReportValue(s, f), "\n");
    assert JsonSyntax.DocumentText(t) == CompletionReport(s, f);
    assert JsonSyntax.DocumentOk(t);
  }

  // ----- Listing finished sessions -----

  datatype Summary = Summary(
    sessionId: string, startTime: string, phase: string, primaryDiagnosis: string, primarySeverity: string,
    actionCount: nat, baselineMemory: nat, optimizedMemory: nat, baselineLatency: Double, optimizedLatency: Double,
    rollbackComplete: bool)

  /** The type and severity of the first diagnosis, empty if there is none. */
  function PrimaryDiagnosis(json: string): (string, string) {
    var body := ArrayBodyOf(json, "diagnoses");
    if body.None? then ("", "")
    else
      var items := ObjectTexts(body.value);
      if items == [] then ("", "")
      else (Or(StringOf(items[0], "type"), ""), Or(StringOf(items[0], "severity"), ""))
  }

  /** ParseCompletionReportSummary. */
  function ParsedSummary(json: string): Option<Summary> {
    hide StringOf, IntegerOf, DoubleOf, BoolOf, ObjectOf, ArrayBodyOf, ObjectTexts;
    var version :- IntegerOf(json, "report_schema_version");
    var sessionId :- StringOf(json, "session_id");
    var state :- StringOf(json, "state");
    var startTime :- StringOf(json, "start_time");
    var phase :- StringOf(json, "measurement_phase");
    var baseline :- ObjectOf(json, "baseline");
    var optimized :- ObjectOf(json, "optimized");
    var rollback :- ObjectOf(json, "rollback");
    var actions :- ArrayBodyOf(json, "actions");
    if version != 1 || state != "Completed" then None
    else
      var baselineMemory :- IntegerOf(baseline, "available_memory_bytes");
      var optimizedMemory :- IntegerOf(optimized, "available_memory_bytes");
      var baselineLatency :- DoubleOf(baseline, "maximum_disk_latency_ms");
      var optimizedLatency :- DoubleOf(optimized, "maximum_disk_latency_ms");
      var complete :- BoolOf(rollback, "complete");
      var (kind, severity) := PrimaryDiagnosis(json);
      Some(Summary(sessionId, startTime, phase, kind, severity, |ObjectTexts(actions)|, baselineMemory,
                   optimizedMemory, baselineLatency, optimizedLatency, complete))
  }

  /** What a report says, in the reader's terms. */
  function ExpectedSummary(s: Session, f: Findings): Summary {
    Summary(s.id, s.startTime, f.phase,
            if f.diagnoses == [] then "" else f.diagnoses[0].kind,
            if f.diagnoses == [] then "" else f.diagnoses[0].severity,
            |s.actions|, s.baseline.availableMemory, f.optimized.availableMemory, s.baseline.diskLatency,
            f.optimized.diskLatency, RollbackComplete(s.actions))
  }

  lemma ReportReads(s: Session, f: Findings)
    requires |s.actions| <= MAXIMUM_UNSIGNED
    ensures |ReportFields(s, f)| == |REPORT_KEYS|
    ensures forall i | 0 <= i < |REPORT_KEYS| ::
              Reads(CompletionReport(s, f), REPORT_KEYS[i], ReportFields(s, f)[i].cell)
  {
    hide ReportFields, ReportValue, CompletionReport, Reads, Emit, ValueOk, MadeOf, CellsOk;
    ReportIsOneObject(s, f);
    ReportOk(s, f);
    ReportCells(s, f);
    ReportNamed(s, f);
    FieldsRead(ReportValue(s, f), ReportFields(s, f), "\n");
  }

  lemma SessionPartReads(s: Session, f: Findings)
    requires |s.actions| <= MAXIMUM_UNSIGNED
    ensures var json := CompletionReport(s, f);
            && StringOf(json, "session_id") == Some(s.id)
            && StringOf(json, "state") == Some("Completed")
            && StringOf(json, "start_time") == Some(s.startTime)
            && ObjectOf(json, "baseline") == Some(JsonFields.Text(PointValue(s.baseline)))
  {
    hide StringOf, IntegerOf, DelimitedText, JsonFields.Text, CompletionReport, FindingFields, PointFields, Listed;
    ReportReads(s, f);
    var json := CompletionReport(s, f);
    assert Reads(json, REPORT_KEYS[1], ReportFields(s, f)[1].cell);
    assert Reads(json, REPORT_KEYS[2], ReportFields(s, f)[2].cell);
    assert Reads(json, REPORT_KEYS[3], ReportFields(s, f)[3].cell);
    assert Reads(json, REPORT_KEYS[4], ReportFields(s, f)[4].cell);
  }

  lemma FindingPartReads(s: Session, f: Findings)
    requires |s.actions| <= MAXIMUM_UNSIGNED
    ensures var json := CompletionReport(s, f);
            && IntegerOf(json, "report_schema_version") == Some(1)
            && StringOf(json, "measurement_phase") == Some(f.phase)
            && ObjectOf(json, "optimized") == Some(JsonFields.Text(PointValue(f.optimized)))
            && ObjectOf(json, "rollback") == Some(JsonFields.Text(RollbackValue(s.actions)))
  {
    hide StringOf, IntegerOf, DelimitedText, JsonFields.Text, CompletionReport, SessionFields, PointFields, Listed,
      RollbackFields, DeltaFields;
    ReportReads(s, f);
    FieldCounts(s.(state := SessionState.Completed), s.actions, f);
    var json := CompletionReport(s, f);
    assert Reads(json, REPORT_KEYS[6], ReportFields(s, f)[6].cell);
    assert Reads(json, REPORT_KEYS[7], ReportFields(s, f)[7].cell);
    assert Reads(json, REPORT_KEYS[8], ReportFields(s, f)[8].cell);
    assert Reads(json, REPORT_KEYS[14], ReportFields(s, f)[14].cell);
  }

  lemma RollbackReads(actions: seq<ExecutedAction>)
    requires |actions| <= MAXIMUM_UNSIGNED
    ensures |RollbackFields(actions)| == |ROLLBACK_KEYS|
    ensures forall i | 0 <= i < |ROLLBACK_KEYS| ::
              Reads(JsonFields.Text(RollbackValue(actions)), ROLLBACK_KEYS[i], RollbackFields(actions)[i].cell)
  {
    RollbackNamed(actions);
    RollbackCells(actions, 1);
    RollbackKeysAreDistinct();
    RollbackKeysAreWords();
    SpacesAreWs();
    hide AllWords, Distinct, AllWs, Reads, Count, RollbackComplete, RollbackFields, Emit;
    LinesRead(RollbackFields(actions), ROLLBACK_KEYS, "  ", "");
  }

  lemma RollbackFlagReads(actions: seq<ExecutedAction>)
    requires |actions| <= MAXIMUM_UNSIGNED
    ensures BoolOf(JsonFields.Text(RollbackValue(actions)), "complete") == Some(RollbackComplete(actions))
  {
    hide BoolOf, IntegerOf, Count, RollbackComplete, RollbackValue, JsonFields.Text;
    RollbackReads(actions);
    assert Reads(JsonFields.Text(RollbackValue(actions)), ROLLBACK_KEYS[0], RollbackFields(actions)[0].cell);
  }

  lemma FirstCountsRead(actions: seq<ExecutedAction>)
    requires |actions| <= MAXIMUM_UNSIGNED
    ensures var rollback, t := JsonFields.Text(RollbackValue(actions)), TallyOf(actions);
            && IntegerOf(rollback, "planned") == Some(t.planned) && IntegerOf(rollback, "applied") == Some(t.applied)
            && IntegerOf(rollback, "completed_one_shot") == Some(t.completed)
            && IntegerOf(rollback, "rolled_back") == Some(t.rolledBack)
  {
    hide BoolOf, IntegerOf, Count, RollbackComplete, RollbackValue, JsonFields.Text;
    RollbackReads(actions);
    var rollback := JsonFields.Text(RollbackValue(actions));
    assert Reads(rollback, ROLLBACK_KEYS[1], RollbackFields(actions)[1].cell);
    assert Reads(rollback, ROLLBACK_KEYS[2], RollbackFields(actions)[2].cell);
    assert Reads(rollback, ROLLBACK_KEYS[3], RollbackFields(actions)[3].cell);
    assert Reads(rollback, ROLLBACK_KEYS[4], RollbackFields(actions)[4].cell);
  }

  lemma LastCountsRead(actions: seq<ExecutedAction>)
    requires |actions| <= MAXIMUM_UNSIGNED
    ensures var rollback, t := JsonFields.Text(RollbackValue(actions)), TallyOf(actions);
            && IntegerOf(rollback, "uncertain") == Some(t.uncertain) && IntegerOf(rollback, "failed") == Some(t.failed)
            && IntegerOf(rollback, "rejected") == Some(t.rejected)
  {
    hide BoolOf, IntegerOf, Count, RollbackComplete, RollbackValue, JsonFields.Text;
    RollbackReads(actions);
    var rollback := JsonFields.Text(RollbackValue(actions));
    assert Reads(rollback, ROLLBACK_KEYS[5], RollbackFields(actions)[5].cell);
    assert Reads(rollback, ROLLBACK_KEYS[6], RollbackFields(actions)[6].cell);
    assert Reads(rollback, ROLLBACK_KEYS[7], RollbackFields(actions)[7].cell);
  }

  lemma ReportArrayReads(s: Session, f: Findings, i: nat, values: seq<Value>)
    requires |s.actions| <= MAXIMUM_UNSIGNED && i < |REPORT_KEYS| && ObjectsOk(values, 2)
    requires |ReportFields(s, f)| == |REPORT_KEYS| && ReportFields(s, f)[i].cell == Nested(Listed(values))
    ensures var body := ArrayBodyOf(CompletionReport(s, f), REPORT_KEYS[i]);
            body.Some? && ObjectTexts(body.value) == Texts(ListedItems(values))
  {
    hide ReportFields, CompletionReport, ReportValue, Emit, ValueOk, Listed, ObjectsOk, CellsOk, ArrayBodyOf,
      ObjectTexts, ListedItems;
    ReportIsOneObject(s, f);
    ReportOk(s, f);
    ReportCells(s, f);
    ReportNamed(s, f);
    var v, json := ReportValue(s, f), CompletionReport(s, f);
    assert json == "" + json && AllWs("");
    assert HasField(json, v, i, REPORT_KEYS[i], Listed(values));
    ListReads(json, v, i, REPORT_KEYS[i], values);
  }

  lemma ActionCountReads(s: Session, f: Findings)
    requires |s.actions| <= MAXIMUM_UNSIGNED
    ensures var body := ArrayBodyOf(CompletionReport(s, f), "actions");
            body.Some? && |ObjectTexts(body.value)| == |s.actions|
  {
    hide ArrayBodyOf, ObjectTexts, CompletionReport, FindingFields, PointValue, Listed, ActionValue, ValueOk;
    var values := ActionValues(s.actions);
    ReportNamed(s, f);
    ActionValuesOk(s.actions, 2);
    assert ReportFields(s, f)[5].cell == Nested(Listed(values));
    ReportArrayReads(s, f, 5, values);
    ListedItemsOk(values, 2);
  }

  lemma DiagnosisReads(g: Diagnosis)
    ensures StringOf(JsonFields.Text(DiagnosisValue(g)), "type") == Some(g.kind)
    ensures StringOf(JsonFields.Text(DiagnosisValue(g)), "severity") == Some(g.severity)
  {
    hide StringOf, CellsOk, ValueOk, EvidenceFields, Emit;
    DiagnosisOk(g, 0);
    DiagnosisNamed(g);
    FieldsRead(DiagnosisValue(g), DiagnosisFields(g), "");
    assert Reads(JsonFields.Text(DiagnosisValue(g)), DIAGNOSIS_KEYS[0], DiagnosisFields(g)[0].cell);
    assert Reads(JsonFields.Text(DiagnosisValue(g)), DIAGNOSIS_KEYS[1], DiagnosisFields(g)[1].cell);
  }

  lemma PrimaryDiagnosisReads(s: Session, f: Findings)
    requires |s.actions| <= MAXIMUM_UNSIGNED
    ensures PrimaryDiagnosis(CompletionReport(s, f))
         == if f.diagnoses == [] then ("", "") else (f.diagnoses[0].kind, f.diagnoses[0].severity)
  {
    hide ArrayBodyOf, ObjectTexts, CompletionReport, ReportFields, Listed, DiagnosisValue, ValueOk, StringOf,
      JsonFields.Text;
    var values := DiagnosisValues(f.diagnoses);
    DiagnosesOk(f.diagnoses, 2);
    DiagnosesAreField12(s, f);
    ReportArrayReads(s, f, 12, values);
    ListedItemsOk(values, 2);
    if f.diagnoses != [] {
      DiagnosisReads(f.diagnoses[0]);
    }
  }

  lemma DiagnosesAreField12(s: Session, f: Findings)
    ensures |ReportFields(s, f)| == |REPORT_KEYS| && REPORT_KEYS[12] == "diagnoses"
    ensures ReportFields(s, f)[12].cell == Nested(Listed(DiagnosisValues(f.diagnoses)))
  {
    hide SessionFields, PointValue, Listed, DiagnosisValue, DeltaFields;
    ReportNamed(s, f);
    FieldCounts(s.(state := SessionState.Completed), s.actions, f);
  }

  /** Every completion report is listed, with the action count and the rollback verdict of the session it is about. */
  lemma SummaryReadsBack(s: Session, f: Findings)
    requires |s.actions| <= MAXIMUM_UNSIGNED
    ensures ParsedSummary(CompletionReport(s, f)) == Some(ExpectedSummary(s, f))
  {
    hide StringOf, IntegerOf, DoubleOf, BoolOf, ObjectOf, ArrayBodyOf, ObjectTexts, CompletionReport, JsonFields.Text,
      PointValue, RollbackValue, RollbackComplete, PrimaryDiagnosis;
    SessionPartReads(s, f);
    FindingPartReads(s, f);
    ActionCountReads(s, f);
    RollbackFlagReads(s.actions);
    PrimaryDiagnosisReads(s, f);
    PointFieldsRead1(s.baseline);
    PointFieldsRead1(f.optimized);
    PointFieldsRead2(s.baseline);
    PointFieldsRead2(f.optimized);
  }

  /** The seven counts and the verdict in the rollback part of a report. */
  function ReportedTally(json: string): Option<(Tally, bool)> {
    var rollback :- ObjectOf(json, "rollback");
    var complete :- BoolOf(rollback, "complete");
    var planned :- IntegerOf(rollback, "planned");
    var applied :- IntegerOf(rollback, "applied");
    var completed :- IntegerOf(rollback, "completed_one_shot");
    var rolledBack :- IntegerOf(rollback, "rolled_back");
    var uncertain :- IntegerOf(rollback, "uncertain");
    var failed :- IntegerOf(rollback, "failed");
    var rejected :- IntegerOf(rollback, "rejected");
    Some((Tally(planned, applied, completed, rolledBack, uncertain, failed, rejected), complete))
  }

  /** The text of a report says how many actions ended in each state, and whether everything was undone. */
  lemma TallyReadsBack(s: Session, f: Findings)
    requires |s.actions| <= MAXIMUM_UNSIGNED
    ensures ReportedTally(CompletionReport(s, f)) == Some((TallyOf(s.actions), RollbackComplete(s.actions)))
  {
    hide StringOf, IntegerOf, BoolOf, ObjectOf, CompletionReport, JsonFields.Text, PointValue, RollbackValue,
      RollbackComplete, Count;
    FindingPartReads(s, f);
    RollbackFlagReads(s.actions);
    FirstCountsRead(s.actions);
    LastCountsRead(s.actions);
  }
}
