/** The words session and report files are made of: field names, in the order they are printed, and enumerator names. */
module Words {
  predicate WordChar(c: char) { 'a' <= c <= 'z' || 'A' <= c <= 'Z' || '0' <= c <= '9' || c == '_' }

  /** A text that reads the same inside quotes, without escaping. */
  predicate IsWord(s: string) {
    forall i | 0 <= i < |s| :: WordChar(s[i])
  }

  predicate AllWords(words: seq<string>) {
    forall i | 0 <= i < |words| :: IsWord(words[i])
  }

  predicate Distinct(words: seq<string>) {
    forall i, j | 0 <= i < j < |words| :: words[i] != words[j]
  }

  const POINT_KEYS: seq<string> := [
    "timestamp", "sample_count", "observed_span_ms", "process_inventory_complete_samples",
    "tcp_inventory_complete_samples", "protection_inventory_complete_samples", "cpu_percent",
    "available_memory_bytes", "commit_ratio", "maximum_disk_active_ratio", "maximum_disk_latency_ms",
    "maximum_disk_queue_length", "maximum_ssd_active_ratio", "maximum_ssd_latency_ms", "maximum_hdd_active_ratio",
    "maximum_hdd_latency_ms", "page_reads_per_sec", "development_cpu_percent", "development_working_set_bytes",
    "top_background_io_process", "top_background_io_bytes_per_sec" ]

  const ACTION_KEYS: seq<string> := [
    "id", "type", "risk", "pid", "expected_start_time_100ns", "process_name", "source_priority", "target_priority",
    "timeout_ms", "service_name", "expected_service_identity", "source_service_state", "explicit_confirmation",
    "reversible", "reason", "state", "original_priority", "original_service_state", "error_code", "error_message",
    "result_message" ]

  const SESSION_KEYS: seq<string> := [
    "schema_version", "session_id", "state", "start_time", "baseline", "actions" ]

  const SESSION_STATE_NAMES: seq<string> := [
    "Active", "Recovering", "Completed", "SafeMode" ]

  const ACTION_TYPE_NAMES: seq<string> := [
    "GracefulCloseProcess", "TerminateProcess", "SetPriorityClass", "StopServiceTemporary", "StartService",
    "DisableStartupEntry", "RestoreStartupEntry" ]

  const RISK_NAMES: seq<string> := [
    "Safe", "Low", "Medium", "High", "Forbidden" ]

  const ACTION_STATE_NAMES: seq<string> := [
    "Planned", "Applied", "Completed", "RolledBack", "Uncertain", "Failed", "Rejected" ]

  const SERVICE_STATE_NAMES: seq<string> := [
    "STOPPED", "START_PENDING", "STOP_PENDING", "RUNNING", "CONTINUE_PENDING", "PAUSE_PENDING", "PAUSED", "UNKNOWN" ]

  const REPORT_KEYS: seq<string> := [
    "schema_version", "session_id", "state", "start_time", "baseline", "actions", "report_schema_version",
    "measurement_phase", "optimized", "delta", "protected_workload_inventory_complete", "protected_workload",
    "diagnoses", "failed_actions", "rollback" ]

  const WORKLOAD_KEYS: seq<string> := [
    "process_name", "class", "protection", "instances" ]

  const DIAGNOSIS_KEYS: seq<string> := [
    "type", "severity", "confidence", "summary", "evidence" ]

  const FAILURE_KEYS: seq<string> := [
    "id", "type", "state", "error_code" ]

  const ROLLBACK_KEYS: seq<string> := [
    "complete", "planned", "applied", "completed_one_shot", "rolled_back", "uncertain", "failed", "rejected" ]

  const BENCHMARK_KEYS: seq<string> := [
    "schema_version", "type", "label", "process_name", "generated_at", "requested_runs", "attempted_runs",
    "successful_runs", "median_visible_window_ms", "median_responsive_window_ms", "observations" ]

  const OBSERVATION_KEYS: seq<string> := [
    "run", "status", "pid", "visible_window_ms", "responsive_window_ms", "error_code" ]

  const COMPARISON_KEYS: seq<string> := [
    "schema_version", "type", "label", "generated_at", "negative_delta_is_improvement", "baseline", "optimized",
    "delta" ]

  const MEDIAN_KEYS: seq<string> := [
    "median_visible_window_ms", "median_responsive_window_ms" ]

  // Each list is checked a few words at a time.

  lemma PointKeysAreWords()
    ensures AllWords(POINT_KEYS)
  {
    hide IsWord;
    PointKeysWords0();
    PointKeysWords1();
    PointKeysWords2();
    PointKeysWords3();
    PointKeysWords4();
    PointKeysWords5();
    PointKeysWords6();
    PointKeysWords7();
    PointKeysWords8();
    PointKeysWords9();
    PointKeysWords10();
    PointKeysWords11();
    PointKeysWords12();
    PointKeysWords13();
    PointKeysWords14();
    PointKeysWords15();
  }

  lemma PointKeysWords0()
    ensures forall i | 0 <= i < 3 :: IsWord(POINT_KEYS[i])
  {
  }

  lemma PointKeysWords1()
    ensures forall i | 3 <= i < 4 :: IsWord(POINT_KEYS[i])
  {
  }

  lemma PointKeysWords2()
    ensures forall i | 4 <= i < 5 :: IsWord(POINT_KEYS[i])
  {
  }

  lemma PointKeysWords3()
    ensures forall i | 5 <= i < 6 :: IsWord(POINT_KEYS[i])
  {
  }

  lemma PointKeysWords4()
    ensures forall i | 6 <= i < 8 :: IsWord(POINT_KEYS[i])
  {
  }

  lemma PointKeysWords5()
    ensures forall i | 8 <= i < 10 :: IsWord(POINT_KEYS[i])
  {
  }

  lemma PointKeysWords6()
    ensures forall i | 10 <= i < 11 :: IsWord(POINT_KEYS[i])
  {
  }

  lemma PointKeysWords7()
    ensures forall i | 11 <= i < 12 :: IsWord(POINT_KEYS[i])
  {
  }

  lemma PointKeysWords8()
    ensures forall i | 12 <= i < 13 :: IsWord(POINT_KEYS[i])
  {
  }

  lemma PointKeysWords9()
    ensures forall i | 13 <= i < 14 :: IsWord(POINT_KEYS[i])
  {
  }

  lemma PointKeysWords10()
    ensures forall i | 14 <= i < 15 :: IsWord(POINT_KEYS[i])
  {
  }

  lemma PointKeysWords11()
    ensures forall i | 15 <= i < 17 :: IsWord(POINT_KEYS[i])
  {
  }

  lemma PointKeysWords12()
    ensures forall i | 17 <= i < 18 :: IsWord(POINT_KEYS[i])
  {
  }

  lemma PointKeysWords13()
    ensures forall i | 18 <= i < 19 :: IsWord(POINT_KEYS[i])
  {
  }

  lemma PointKeysWords14()
    ensures forall i | 19 <= i < 20 :: IsWord(POINT_KEYS[i])
  {
  }

  lemma PointKeysWords15()
    ensures forall i | 20 <= i < 21 :: IsWord(POINT_KEYS[i])
  {
  }

  lemma ActionKeysAreWords()
    ensures AllWords(ACTION_KEYS)
  {
    hide IsWord;
    ActionKeysWords0();
    ActionKeysWords1();
    ActionKeysWords2();
    ActionKeysWords3();
    ActionKeysWords4();
    ActionKeysWords5();
    ActionKeysWords6();
    ActionKeysWords7();
  }

  lemma ActionKeysWords0()
    ensures forall i | 0 <= i < 5 :: IsWord(ACTION_KEYS[i])
  {
  }

  lemma ActionKeysWords1()
    ensures forall i | 5 <= i < 8 :: IsWord(ACTION_KEYS[i])
  {
  }

  lemma ActionKeysWords2()
    ensures forall i | 8 <= i < 10 :: IsWord(ACTION_KEYS[i])
  {
  }

  lemma ActionKeysWords3()
    ensures forall i | 10 <= i < 11 :: IsWord(ACTION_KEYS[i])
  {
  }

  lemma ActionKeysWords4()
    ensures forall i | 11 <= i < 13 :: IsWord(ACTION_KEYS[i])
  {
  }

  lemma ActionKeysWords5()
    ensures forall i | 13 <= i < 17 :: IsWord(ACTION_KEYS[i])
  {
  }

  lemma ActionKeysWords6()
    ensures forall i | 17 <= i < 19 :: IsWord(ACTION_KEYS[i])
  {
  }

  lemma ActionKeysWords7()
    ensures forall i | 19 <= i < 21 :: IsWord(ACTION_KEYS[i])
  {
  }

  lemma SessionKeysAreWords()
    ensures AllWords(SESSION_KEYS)
  {
    hide IsWord;
    SessionKeysWords0();
    SessionKeysWords1();
  }

  lemma SessionKeysWords0()
    ensures forall i | 0 <= i < 4 :: IsWord(SESSION_KEYS[i])
  {
  }

  lemma SessionKeysWords1()
    ensures forall i | 4 <= i < 6 :: IsWord(SESSION_KEYS[i])
  {
  }

  lemma SessionStateNamesAreWords()
    ensures AllWords(SESSION_STATE_NAMES)
  {
  }

  lemma ActionTypeNamesAreWords()
    ensures AllWords(ACTION_TYPE_NAMES)
  {
    hide IsWord;
    ActionTypeNamesWords0();
    ActionTypeNamesWords1();
    ActionTypeNamesWords2();
    ActionTypeNamesWords3();
  }

  lemma ActionTypeNamesWords0()
    ensures forall i | 0 <= i < 2 :: IsWord(ACTION_TYPE_NAMES[i])
  {
  }

  lemma ActionTypeNamesWords1()
    ensures forall i | 2 <= i < 4 :: IsWord(ACTION_TYPE_NAMES[i])
  {
  }

  lemma ActionTypeNamesWords2()
    ensures forall i | 4 <= i < 6 :: IsWord(ACTION_TYPE_NAMES[i])
  {
  }

  lemma ActionTypeNamesWords3()
    ensures forall i | 6 <= i < 7 :: IsWord(ACTION_TYPE_NAMES[i])
  {
  }

  lemma RiskNamesAreWords()
    ensures AllWords(RISK_NAMES)
  {
  }

  lemma ActionStateNamesAreWords()
    ensures AllWords(ACTION_STATE_NAMES)
  {
    hide IsWord;
    ActionStateNamesWords0();
    ActionStateNamesWords1();
  }

  lemma ActionStateNamesWords0()
    ensures forall i | 0 <= i < 5 :: IsWord(ACTION_STATE_NAMES[i])
  {
  }

  lemma ActionStateNamesWords1()
    ensures forall i | 5 <= i < 7 :: IsWord(ACTION_STATE_NAMES[i])
  {
  }

  lemma ServiceStateNamesAreWords()
    ensures AllWords(SERVICE_STATE_NAMES)
  {
    hide IsWord;
    ServiceStateNamesWords0();
    ServiceStateNamesWords1();
  }

  lemma ServiceStateNamesWords0()
    ensures forall i | 0 <= i < 4 :: IsWord(SERVICE_STATE_NAMES[i])
  {
  }

  lemma ServiceStateNamesWords1()
    ensures forall i | 4 <= i < 8 :: IsWord(SERVICE_STATE_NAMES[i])
  {
  }

  lemma ReportKeysAreWords()
    ensures AllWords(REPORT_KEYS)
  {
    hide IsWord;
    ReportKeysWords0();
    ReportKeysWords1();
    ReportKeysWords2();
    ReportKeysWords3();
    ReportKeysWords4();
    ReportKeysWords5();
  }

  lemma ReportKeysWords0()
    ensures forall i | 0 <= i < 4 :: IsWord(REPORT_KEYS[i])
  {
  }

  lemma ReportKeysWords1()
    ensures forall i | 4 <= i < 7 :: IsWord(REPORT_KEYS[i])
  {
  }

  lemma ReportKeysWords2()
    ensures forall i | 7 <= i < 10 :: IsWord(REPORT_KEYS[i])
  {
  }

  lemma ReportKeysWords3()
    ensures forall i | 10 <= i < 11 :: IsWord(REPORT_KEYS[i])
  {
  }

  lemma ReportKeysWords4()
    ensures forall i | 11 <= i < 14 :: IsWord(REPORT_KEYS[i])
  {
  }

  lemma ReportKeysWords5()
    ensures forall i | 14 <= i < 15 :: IsWord(REPORT_KEYS[i])
  {
  }

  lemma WorkloadKeysAreWords()
    ensures AllWords(WORKLOAD_KEYS)
  {
  }

  lemma DiagnosisKeysAreWords()
    ensures AllWords(DIAGNOSIS_KEYS)
  {
  }

  lemma FailureKeysAreWords()
    ensures AllWords(FAILURE_KEYS)
  {
  }

  lemma RollbackKeysAreWords()
    ensures AllWords(ROLLBACK_KEYS)
  {
    hide IsWord;
    RollbackKeysWords0();
    RollbackKeysWords1();
  }

  lemma RollbackKeysWords0()
    ensures forall i | 0 <= i < 4 :: IsWord(ROLLBACK_KEYS[i])
  {
  }

  lemma RollbackKeysWords1()
    ensures forall i | 4 <= i < 8 :: IsWord(ROLLBACK_KEYS[i])
  {
  }

  lemma BenchmarkKeysAreWords()
    ensures AllWords(BENCHMARK_KEYS)
  {
    hide IsWord;
    BenchmarkKeysWords0();
    BenchmarkKeysWords1();
    BenchmarkKeysWords2();
    BenchmarkKeysWords3();
  }

  lemma BenchmarkKeysWords0()
    ensures forall i | 0 <= i < 4 :: IsWord(BENCHMARK_KEYS[i])
  {
  }

  lemma BenchmarkKeysWords1()
    ensures forall i | 4 <= i < 7 :: IsWord(BENCHMARK_KEYS[i])
  {
  }

  lemma BenchmarkKeysWords2()
    ensures forall i | 7 <= i < 9 :: IsWord(BENCHMARK_KEYS[i])
  {
  }

  lemma BenchmarkKeysWords3()
    ensures forall i | 9 <= i < 11 :: IsWord(BENCHMARK_KEYS[i])
  {
  }

  lemma ObservationKeysAreWords()
    ensures AllWords(OBSERVATION_KEYS)
  {
    hide IsWord;
    ObservationKeysWords0();
    ObservationKeysWords1();
  }

  lemma ObservationKeysWords0()
    ensures forall i | 0 <= i < 4 :: IsWord(OBSERVATION_KEYS[i])
  {
  }

  lemma ObservationKeysWords1()
    ensures forall i | 4 <= i < 6 :: IsWord(OBSERVATION_KEYS[i])
  {
  }

  lemma ComparisonKeysAreWords()
    ensures AllWords(COMPARISON_KEYS)
  {
    hide IsWord;
    ComparisonKeysWords0();
    ComparisonKeysWords1();
    ComparisonKeysWords2();
  }

  lemma ComparisonKeysWords0()
    ensures forall i | 0 <= i < 4 :: IsWord(COMPARISON_KEYS[i])
  {
  }

  lemma ComparisonKeysWords1()
    ensures forall i | 4 <= i < 6 :: IsWord(COMPARISON_KEYS[i])
  {
  }

  lemma ComparisonKeysWords2()
    ensures forall i | 6 <= i < 8 :: IsWord(COMPARISON_KEYS[i])
  {
  }

  lemma MedianKeysAreWords()
    ensures AllWords(MEDIAN_KEYS)
  {
    hide IsWord;
    MedianKeysWords0();
    MedianKeysWords1();
  }

  lemma MedianKeysWords0()
    ensures forall i | 0 <= i < 1 :: IsWord(MEDIAN_KEYS[i])
  {
  }

  lemma MedianKeysWords1()
    ensures forall i | 1 <= i < 2 :: IsWord(MEDIAN_KEYS[i])
  {
  }

  lemma PointKeysAreDistinct()
    ensures Distinct(POINT_KEYS)
  {
    PointKeysDistinct0();
    PointKeysDistinct1();
    PointKeysDistinct2();
  }

  lemma PointKeysDistinct0()
    ensures forall i, j | 0 <= i < 7 && i < j < 21 :: POINT_KEYS[i] != POINT_KEYS[j]
  {
  }

  lemma PointKeysDistinct1()
    ensures forall i, j | 7 <= i < 14 && i < j < 21 :: POINT_KEYS[i] != POINT_KEYS[j]
  {
  }

  lemma PointKeysDistinct2()
    ensures forall i, j | 14 <= i < 20 && i < j < 21 :: POINT_KEYS[i] != POINT_KEYS[j]
  {
  }

  lemma ActionKeysAreDistinct()
    ensures Distinct(ACTION_KEYS)
  {
    ActionKeysDistinct0();
    ActionKeysDistinct1();
    ActionKeysDistinct2();
  }

  lemma ActionKeysDistinct0()
    ensures forall i, j | 0 <= i < 7 && i < j < 21 :: ACTION_KEYS[i] != ACTION_KEYS[j]
  {
  }

  lemma ActionKeysDistinct1()
    ensures forall i, j | 7 <= i < 14 && i < j < 21 :: ACTION_KEYS[i] != ACTION_KEYS[j]
  {
  }

  lemma ActionKeysDistinct2()
    ensures forall i, j | 14 <= i < 20 && i < j < 21 :: ACTION_KEYS[i] != ACTION_KEYS[j]
  {
  }

  lemma SessionKeysAreDistinct()
    ensures Distinct(SESSION_KEYS)
  {
  }

  lemma ReportKeysAreDistinct()
    ensures Distinct(REPORT_KEYS)
  {
    ReportKeysDistinct0();
    ReportKeysDistinct1();
  }

  lemma ReportKeysDistinct0()
    ensures forall i, j | 0 <= i < 7 && i < j < 15 :: REPORT_KEYS[i] != REPORT_KEYS[j]
  {
  }

  lemma ReportKeysDistinct1()
    ensures forall i, j | 7 <= i < 14 && i < j < 15 :: REPORT_KEYS[i] != REPORT_KEYS[j]
  {
  }

  lemma WorkloadKeysAreDistinct()
    ensures Distinct(WORKLOAD_KEYS)
  {
  }

  lemma DiagnosisKeysAreDistinct()
    ensures Distinct(DIAGNOSIS_KEYS)
  {
  }

  lemma FailureKeysAreDistinct()
    ensures Distinct(FAILURE_KEYS)
  {
  }

  lemma RollbackKeysAreDistinct()
    ensures Distinct(ROLLBACK_KEYS)
  {
  }

  lemma BenchmarkKeysAreDistinct()
    ensures Distinct(BENCHMARK_KEYS)
  {
    BenchmarkKeysDistinct0();
    BenchmarkKeysDistinct1();
  }

  lemma BenchmarkKeysDistinct0()
    ensures forall i, j | 0 <= i < 7 && i < j < 11 :: BENCHMARK_KEYS[i] != BENCHMARK_KEYS[j]
  {
  }

  lemma BenchmarkKeysDistinct1()
    ensures forall i, j | 7 <= i < 10 && i < j < 11 :: BENCHMARK_KEYS[i] != BENCHMARK_KEYS[j]
  {
  }

  lemma ObservationKeysAreDistinct()
    ensures Distinct(OBSERVATION_KEYS)
  {
  }

  lemma ComparisonKeysAreDistinct()
    ensures Distinct(COMPARISON_KEYS)
  {
  }

  lemma MedianKeysAreDistinct()
    ensures Distinct(MEDIAN_KEYS)
  {
  }
}
