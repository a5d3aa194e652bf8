/** SessionManager::Deserialize as it runs: validate, scan the fields, split the array, append each action. */
module SessionLoader {
  import opened Types
  import opened JsonText
  import opened JsonScan
  import opened JsonFields
  import opened SessionModel
  import opened SessionText
  import Reader = JsonReader
  import JsonSyntax

  /** A number with a fraction or an exponent, at a delimiter. */
  method DoubleField(json: string, key: string) returns (r: Option<Num>)
    ensures r == DoubleOf(json, key)
  {
    hide FieldText, TakeNum, NumOk, AtDelimiter;
    var start := Reader.FieldValueStart(json, key);
    if start.None? {
      return None;
    }
    var number := TakeNum(json[start.value..]);
    if number.None? || !NumOk(number.value.0) || !AtDelimiter(number.value.1) {
      return None;
    }
    return Some(number.value.0);
  }

  /** What is between the brackets of an array. */
  method ArrayBody(json: string, key: string) returns (r: Option<string>)
    ensures r == ArrayBodyOf(json, key)
  {
    hide DelimitedText;
    var cut := Reader.DelimitedField(json, key, '[', ']');
    if cut.None? || |cut.value| < 2 {
      return None;
    }
    return Some(cut.value[1..|cut.value| - 1]);
  }

  method LoadCoverage(b: string) returns (c: Coverage)
    ensures c == CoverageIn(b)
  {
    hide StringOf, IntegerOf, DoubleOf;
    var timestamp := Reader.StringField(b, "timestamp");
    var samples := Reader.IntegerField(b, "sample_count");
    var span := Reader.IntegerField(b, "observed_span_ms");
    var process := Reader.IntegerField(b, "process_inventory_complete_samples");
    var tcp := Reader.IntegerField(b, "tcp_inventory_complete_samples");
    var protection := Reader.IntegerField(b, "protection_inventory_complete_samples");
    return Coverage(timestamp, samples, span, process, tcp, protection);
  }

  method LoadBasics(b: string) returns (m: Basics)
    ensures m == BasicsIn(b)
  {
    hide StringOf, IntegerOf, DoubleOf;
    var cpu := DoubleField(b, "cpu_percent");
    var available := Reader.IntegerField(b, "available_memory_bytes");
    var commit := DoubleField(b, "commit_ratio");
    var active := DoubleField(b, "maximum_disk_active_ratio");
    var latency := DoubleField(b, "maximum_disk_latency_ms");
    return Basics(cpu, available, commit, active, latency);
  }

  method LoadExtras(b: string) returns (e: Extras)
    ensures e == ExtrasIn(b)
  {
    hide StringOf, IntegerOf, DoubleOf;
    var queue := DoubleField(b, "maximum_disk_queue_length");
    var ssdActive := DoubleField(b, "maximum_ssd_active_ratio");
    var ssdLatency := DoubleField(b, "maximum_ssd_latency_ms");
    var hddActive := DoubleField(b, "maximum_hdd_active_ratio");
    var hddLatency := DoubleField(b, "maximum_hdd_latency_ms");
    var pageReads := DoubleField(b, "page_reads_per_sec");
    var developmentCpu := DoubleField(b, "development_cpu_percent");
    var developmentWorkingSet := Reader.IntegerField(b, "development_working_set_bytes");
    var topProcess := Reader.StringField(b, "top_background_io_process");
    var topIo := DoubleField(b, "top_background_io_bytes_per_sec");
    return Extras(queue, ssdActive, ssdLatency, hddActive, hddLatency, pageReads, developmentCpu,
                  developmentWorkingSet, topProcess, topIo);
  }

  /** The baseline, field by field; old files lack some. */
  method LoadPoint(b: string) returns (point: Option<BenchmarkPoint>)
    ensures point == ReadPoint(b)
  {
    hide CoverageIn, BasicsIn, ExtrasIn;
    var c := LoadCoverage(b);
    var m := LoadBasics(b);
    var e := LoadExtras(b);
    return PointFrom(c, m, e);
  }

  method LoadTexts(o: string) returns (t: ActionWords)
    ensures t == TextsIn(o)
  {
    hide StringOf;
    var id := Reader.StringField(o, "id");
    var kind := Reader.StringField(o, "type");
    var risk := Reader.StringField(o, "risk");
    var name := Reader.StringField(o, "process_name");
    var reason := Reader.StringField(o, "reason");
    var state := Reader.StringField(o, "state");
    var errorMessage := Reader.StringField(o, "error_message");
    var resultMessage := Reader.StringField(o, "result_message");
    return ActionWords(id, kind, risk, name, reason, state, errorMessage, resultMessage);
  }

  method LoadNumbers(o: string) returns (n: ActionNumbers)
    ensures n == NumbersIn(o)
  {
    hide IntegerOf;
    var pid := Reader.IntegerField(o, "pid");
    var expected := Reader.IntegerField(o, "expected_start_time_100ns");
    var source := Reader.IntegerField(o, "source_priority");
    var target := Reader.IntegerField(o, "target_priority");
    var timeout := Reader.IntegerField(o, "timeout_ms");
    var original := Reader.IntegerField(o, "original_priority");
    var errorCode := Reader.IntegerField(o, "error_code");
    return ActionNumbers(pid, expected, source, target, timeout, original, errorCode);
  }

  method LoadServiceParts(o: string) returns (v: ServiceParts)
    ensures v == ServiceIn(o)
  {
    hide StringOf, BoolOf;
    var name := Reader.StringField(o, "service_name");
    var identity := Reader.StringField(o, "expected_service_identity");
    var sourceState := Reader.StringField(o, "source_service_state");
    var confirmation := Reader.BoolField(o, "explicit_confirmation");
    var originalState := Reader.StringField(o, "original_service_state");
    return ServiceParts(name, identity, sourceState, confirmation, originalState);
  }

  /** One action object, field by field. */
  method LoadAction(o: string, schema: nat) returns (action: Option<ExecutedAction>)
    ensures action == ReadAction(o, schema)
  {
    hide TextsIn, NumbersIn, ServiceIn, ActionFrom;
    var t := LoadTexts(o);
    var n := LoadNumbers(o);
    var v := LoadServiceParts(o);
    return ActionFrom(t, n, v, schema);
  }

  lemma ReadActionsGrows(objects: seq<string>, schema: nat, i: nat)
    requires i < |objects|
    ensures ReadActions(objects[..i + 1], schema)
            == var before, next := ReadActions(objects[..i], schema), ReadAction(objects[i], schema);
               if before.Some? && next.Some? then Some(before.value + [next.value]) else None
  {
    assert objects[..i + 1] == objects[..i] + [objects[i]];
    hide ReadAction;
    ReadActionsAppend(objects[..i], objects[i], schema);
  }

  lemma {:induction false} ReadActionsAppend(objects: seq<string>, last: string, schema: nat)
    ensures ReadActions(objects + [last], schema)
            == var before, next := ReadActions(objects, schema), ReadAction(last, schema);
               if before.Some? && next.Some? then Some(before.value + [next.value]) else None
  {
    hide ReadAction;
    var all := objects + [last];
    assert ReadActions([], schema) == Some([]);
    if objects == [] {
      assert all == [last] && all[1..] == [];
      if ReadAction(last, schema).Some? {
        assert [ReadAction(last, schema).value] + [] == [] + [ReadAction(last, schema).value];
      }
    } else {
      assert all[0] == objects[0];
      assert all[1..] == objects[1..] + [last];
      ReadActionsAppend(objects[1..], last, schema);
      if ReadAction(objects[0], schema).Some? && ReadActions(objects[1..], schema).Some?
         && ReadAction(last, schema).Some? {
        var first, rest, end :=
          ReadAction(objects[0], schema).value, ReadActions(objects[1..], schema).value, ReadAction(last, schema).value;
        assert [first] + (rest + [end]) == [first] + rest + [end];
      }
    }
  }

  lemma {:induction false} ReadActionsFails(objects: seq<string>, schema: nat, i: nat)
    requires i <= |objects| && ReadActions(objects[..i], schema).None?
    ensures ReadActions(objects, schema).None?
    decreases |objects| - i
  {
    hide ReadActions, ReadAction;
    if i < |objects| {
      ReadActionsGrows(objects, schema, i);
      ReadActionsFails(objects, schema, i + 1);
    } else {
      assert objects[..i] == objects;
    }
  }

  /** The loop over the action objects: one bad record refuses them all. */
  method LoadActions(objects: seq<string>, schema: nat) returns (loaded: Option<seq<ExecutedAction>>)
    ensures loaded == ReadActions(objects, schema)
  {
    var actions: seq<ExecutedAction> := [];
    assert objects[..0] == [];
    for i := 0 to |objects|
      invariant ReadActions(objects[..i], schema) == Some(actions)
    {
      hide ReadAction, ReadActions;
      ReadActionsGrows(objects, schema, i);
      var action := LoadAction(objects[i], schema);
      if action.None? {
        ReadActionsFails(objects, schema, i + 1);
        return None;
      }
      actions := actions + [action.value];
    }
    assert objects[..|objects|] == objects;
    return Some(actions);
  }

  /** Loads exactly what the declarative loader loads. */
  method Deserialize(json: string) returns (session: Option<Session>)
    ensures session == Deserialized(json)
  {
    hide ReadPoint, ReadAction, ReadActions, StringOf, IntegerOf, DelimitedText, ArrayBodyOf;
    var validator := new JsonSyntax.JsonSyntaxValidator(json);
    var valid := validator.ValidateObject();
    JsonSyntax.AcceptsExactlyObjectTexts(json);
    hide JsonSyntax.IsObjectText, JsonSyntax.Accepts;
    if !valid {
      return None;
    }
    var schema := Reader.IntegerField(json, "schema_version");
    var id := Reader.StringField(json, "session_id");
    var stateName := Reader.StringField(json, "state");
    var startTime := Reader.StringField(json, "start_time");
    var baselineText := Reader.DelimitedField(json, "baseline", '{', '}');
    var state := if stateName.Some? then SessionStateFrom(stateName.value) else None;
    var baseline: Option<BenchmarkPoint> := None;
    if baselineText.Some? {
      baseline := LoadPoint(baselineText.value);
    }
    if schema.None? || (schema.value != 1 && schema.value != 2 && schema.value != 3) || id.None? || state.None?
       || startTime.None? || baseline.None? {
      return None;
    }
    var body := ArrayBody(json, "actions");
    if body.None? {
      return None;
    }
    var objects := Reader.Objects(body.value);
    var actions := LoadActions(objects, schema.value);
    if actions.None? {
      return None;
    }
    return Some(Session(id.value, state.value, startTime.value, baseline.value, actions.value));
  }
}
