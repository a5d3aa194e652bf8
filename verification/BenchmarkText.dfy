/** Startup benchmark reports, and the re-indentation that nests one report inside another. */
module BenchmarkText {
  import opened Types
  import opened Words
  import opened JsonText
  import opened JsonFields
  import opened JsonLayout
  import JsonSyntax

  type Label = s: string | IsWord(s) witness ""

  datatype Observation = Observation(
    status: Label, succeeded: bool, pid: u32, visibleMs: Option<u64>, responsiveMs: Option<u64>, errorCode: u32)

  /** Medians are doubles, printed as number tokens. */
  datatype Summary = Summary(
    title: string, processName: string, generatedAt: string, requestedRuns: u64, observations: seq<Observation>,
    medianVisible: Option<Double>, medianResponsive: Option<Double>)

  datatype Comparison = Comparison(
    title: string, generatedAt: string, baseline: Summary, optimized: Summary, deltaVisible: Option<Double>,
    deltaResponsive: Option<Double>)

  // ----- The printers -----

  function OptionalInteger(n: Option<u64>): Cell { if n.Some? then Natural(n.value) else Null }
  function OptionalReal(x: Option<Double>): Cell { if x.Some? then Real(x.value) else Null }

  function ObservationFields(o: Observation, run: nat): seq<Field> {
    [ Field("run", Natural(run)),
      Field("status", Name(o.status)),
      Field("pid", Natural(o.pid)),
      Field("visible_window_ms", OptionalInteger(o.visibleMs)),
      Field("responsive_window_ms", OptionalInteger(o.responsiveMs)),
      Field("error_code", Natural(o.errorCode)) ]
  }

  function ObservationValues(os: seq<Observation>): seq<Value> {
    seq(|os|, i requires 0 <= i < |os| => InlineObject(ObservationFields(os[i], i + 1)))
  }

  function Successful(os: seq<Observation>): (n: nat)
    ensures n <= |os|
  {
    if os == [] then 0 else (if os[0].succeeded then 1 else 0) + Successful(os[1..])
  }

  function SummaryFields(s: Summary): seq<Field> {
    [ Field("schema_version", Natural(1)),
      Field("type", Text("StartupResponsiveness")),
      Field("label", Text(s.title)),
      Field("process_name", Text(s.processName)),
      Field("generated_at", Text(s.generatedAt)),
      Field("requested_runs", Natural(s.requestedRuns)),
      Field("attempted_runs", Natural(|s.observations|)),
      Field("successful_runs", Natural(Successful(s.observations))),
      Field("median_visible_window_ms", OptionalReal(s.medianVisible)),
      Field("median_responsive_window_ms", OptionalReal(s.medianResponsive)),
      Field("observations", Nested(Listed(ObservationValues(s.observations)))) ]
  }

  function SummaryValue(s: Summary): Value { LinesObject(SummaryFields(s), "") }

  /** BenchmarkManager::Json. */
  function SummaryJson(s: Summary): string { Emit(SummaryValue(s), "\n") }

  /** What insertion after every newline makes of a text. */
  function Indented(s: string, indentation: string): string {
    if s == "" then ""
    else (if s[0] == '\n' then ['\n'] + indentation else [s[0]]) + Indented(s[1..], indentation)
  }

  function DropNewline(s: string): string {
    if s != "" && s[|s| - 1] == '\n' then s[..|s| - 1] else s
  }

  function DeltaFields(c: Comparison): seq<Field> {
    [ Field("median_visible_window_ms", OptionalReal(c.deltaVisible)),
      Field("median_responsive_window_ms", OptionalReal(c.deltaResponsive)) ]
  }

  /** The text of one field: its line, up to the value. */
  function Opening(key: string): string { "\n  " + ['"'] + key + ['"'] + ": " }

  /** BenchmarkManager::ComparisonJson. */
  function ComparisonJson(c: Comparison): string {
    ['{'] + EmitMembers(Laid(HeadFields(c), "\n  ", "\n  ", ""), [',']
    + (Opening("baseline") + (Indented(DropNewline(SummaryJson(c.baseline)), "  ") + ([',']
    + (Opening("optimized") + (Indented(DropNewline(SummaryJson(c.optimized)), "  ") + ([',']
    + (Opening("delta") + (JsonFields.Text(LinesObject(DeltaFields(c), "  ")) + "\n}\n")))))))))
  }

  function HeadFields(c: Comparison): seq<Field> {
    [ Field("schema_version", Natural(1)),
      Field("type", Text("StartupResponsivenessComparison")),
      Field("label", Text(c.title)),
      Field("generated_at", Text(c.generatedAt)),
      Field("negative_delta_is_improvement", Flag(true)) ]
  }

  // ----- Re-indentation -----

  /** The same tree with the whitespace re-indented. */
  function IndentValue(v: Value, indentation: string): Value
    decreases v, 1
  {
    match v
    case Arr(pad, items) => Arr(Indented(pad, indentation), IndentItems(items, indentation))
    case Obj(pad, members) => Obj(Indented(pad, indentation), IndentMembers(members, indentation))
    case _ => v
  }

  function IndentItems(items: seq<Item>, indentation: string): (r: seq<Item>)
    ensures |r| == |items|
    decreases items, 0
  {
    if items == [] then []
    else
      [Item(Indented(items[0].before, indentation), IndentValue(items[0].value, indentation),
            Indented(items[0].after, indentation))] + IndentItems(items[1..], indentation)
  }

  function IndentMembers(members: seq<Member>, indentation: string): (r: seq<Member>)
    ensures |r| == |members|
    decreases members, 0
  {
    if members == [] then []
    else
      var m := members[0];
      [Member(Indented(m.before, indentation), m.key, Indented(m.mid, indentation), Indented(m.gap, indentation),
              IndentValue(m.value, indentation), Indented(m.after, indentation))]
      + IndentMembers(members[1..], indentation)
  }

  lemma {:induction false} IndentedJoins(a: string, b: string, indentation: string)
    ensures Indented(a + b, indentation) == Indented(a, indentation) + Indented(b, indentation)
  {
    if a == "" {
      assert a + b == b;
    } else {
      assert (a + b)[1..] == a[1..] + b;
      IndentedJoins(a[1..], b, indentation);
    }
  }

  predicate OneLine(s: string) { s == "" || (s[0] != '\n' && OneLine(s[1..])) }

  lemma {:induction false} OneLineStays(s: string, rest: string, indentation: string)
    requires OneLine(s)
    ensures Indented(s + rest, indentation) == s + Indented(rest, indentation)
  {
    if s == "" {
      assert s + rest == rest;
    } else {
      assert (s + rest)[1..] == s[1..] + rest;
      OneLineStays(s[1..], rest, indentation);
    }
  }

  lemma {:induction false} RawIsOneLine(s: string)
    requires RawOk(s)
    ensures OneLine(s)
    decreases |s|
  {
    if s == "" {
    } else if s[0] != '\\' {
      RawIsOneLine(s[1..]);
    } else if IsSimpleEscape(s[1]) {
      RawIsOneLine(s[2..]);
      assert s[1..][1..] == s[2..];
    } else {
      RawIsOneLine(s[6..]);
      assert s[1..][1..] == s[2..] && s[2..][1..] == s[3..] && s[3..][1..] == s[4..] && s[4..][1..] == s[5..]
          && s[5..][1..] == s[6..];
      assert OneLine(s[4..]);
      assert OneLine(s[2..]);
    }
  }

  lemma {:induction false} DigitsAreOneLine(s: string)
    requires AllDigits(s)
    ensures OneLine(s)
  {
    if s != "" { DigitsAreOneLine(s[1..]); }
  }

  lemma NumberStays(n: Num, rest: string, indentation: string)
    requires NumOk(n)
    ensures Indented(EmitNum(n, rest), indentation) == EmitNum(n, Indented(rest, indentation))
  {
    var s1 := EmitExponent(n.exponent, rest);
    var s2 := EmitFraction(n.fraction, s1);
    ExponentStays(n.exponent, rest, indentation);
    FractionStays(n.fraction, s1, indentation);
    DigitsAreOneLine(n.whole);
    OneLineStays(n.whole, s2, indentation);
    OneLineStays(if n.minus then "-" else "", n.whole + s2, indentation);
  }

  lemma FractionStays(f: Option<string>, rest: string, indentation: string)
    requires f.Some? ==> AllDigits(f.value)
    ensures Indented(EmitFraction(f, rest), indentation) == EmitFraction(f, Indented(rest, indentation))
  {
    if f.Some? {
      DigitsAreOneLine(f.value);
      OneLineStays(f.value, rest, indentation);
      OneLineStays(".", f.value + rest, indentation);
    }
  }

  lemma ExponentStays(e: Option<Exponent>, rest: string, indentation: string)
    requires e.Some? ==> ExponentOk(e.value)
    ensures Indented(EmitExponent(e, rest), indentation) == EmitExponent(e, Indented(rest, indentation))
  {
    if e.Some? {
      DigitsAreOneLine(e.value.digits);
      OneLineStays(e.value.digits, rest, indentation);
      OneLineStays(e.value.sign, e.value.digits + rest, indentation);
      OneLineStays([e.value.mark], e.value.sign + (e.value.digits + rest), indentation);
    }
  }

  lemma StringStays(raw: string, rest: string, indentation: string)
    requires RawOk(raw)
    ensures Indented(EmitStr(raw, rest), indentation) == EmitStr(raw, Indented(rest, indentation))
  {
    RawIsOneLine(raw);
    OneLineStays(['"'], rest, indentation);
    OneLineStays(raw, ['"'] + rest, indentation);
    OneLineStays(['"'], raw + (['"'] + rest), indentation);
  }

  lemma LiteralStays(text: string, rest: string, indentation: string)
    requires IsLiteral(text)
    ensures Indented(text + rest, indentation) == text + Indented(rest, indentation)
  {
    hide Indented;
    assert OneLine("true") && OneLine("false") && OneLine("null");
    OneLineStays(text, rest, indentation);
  }

  /** Indentation only touches newlines outside strings, so it commutes with printing. */
  lemma {:induction false} IndentCommutes(v: Value, d: nat, rest: string, indentation: string)
    requires ValueOk(v, d)
    ensures Indented(Emit(v, rest), indentation) == Emit(IndentValue(v, indentation), Indented(rest, indentation))
    decreases v, 1
  {
    hide RawOk, NumOk, EmitNum, EmitStr, ItemsOk, MembersOk, EmitItems, EmitMembers, Indented, FreshKeys, AllWs;
    match v
    case Literal(text) => LiteralStays(text, rest, indentation);
    case Number(n) => NumberStays(n, rest, indentation);
    case Str(raw) => StringStays(raw, rest, indentation);
    case Arr(pad, items) =>
      var body := EmitItems(items, [']'] + rest);
      OneLineStays("]", rest, indentation);
      IndentItemsCommutes(items, d + 1, [']'] + rest, indentation);
      IndentedJoins(pad, body, indentation);
      OneLineStays("[", pad + body, indentation);
    case Obj(pad, members) =>
      var body := EmitMembers(members, ['}'] + rest);
      OneLineStays("}", rest, indentation);
      IndentMembersCommutes(members, d + 1, ['}'] + rest, indentation);
      IndentedJoins(pad, body, indentation);
      OneLineStays("{", pad + body, indentation);
  }

  lemma {:induction false} IndentItemsCommutes(items: seq<Item>, d: nat, rest: string, indentation: string)
    requires ItemsOk(items, d)
    ensures Indented(EmitItems(items, rest), indentation)
         == EmitItems(IndentItems(items, indentation), Indented(rest, indentation))
    decreases items, 0
  {
    hide Emit, Indented, ValueOk, AllWs;
    if items != [] {
      var item, tail := items[0], items[1..];
      var more := MoreItems(tail, rest);
      var value := Emit(item.value, item.after + more);
      if tail != [] {
        IndentItemsCommutes(tail, d, rest, indentation);
        OneLineStays(",", EmitItems(tail, rest), indentation);
      }
      IndentedJoins(item.after, more, indentation);
      IndentCommutes(item.value, d, item.after + more, indentation);
      IndentedJoins(item.before, value, indentation);
      assert IndentItems(items, indentation)[1..] == IndentItems(tail, indentation);
    }
  }

  lemma {:induction false} IndentMembersCommutes(members: seq<Member>, d: nat, rest: string, indentation: string)
    requires MembersOk(members, d)
    ensures Indented(EmitMembers(members, rest), indentation)
         == EmitMembers(IndentMembers(members, indentation), Indented(rest, indentation))
    decreases members, 0
  {
    hide Emit, EmitStr, Indented, ValueOk, AllWs, RawOk;
    if members != [] {
      var m, tail := members[0], members[1..];
      var more := MoreMembers(tail, rest);
      var value := Emit(m.value, m.after + more);
      if tail != [] {
        IndentMembersCommutes(tail, d, rest, indentation);
        OneLineStays(",", EmitMembers(tail, rest), indentation);
      }
      IndentedJoins(m.after, more, indentation);
      IndentCommutes(m.value, d, m.after + more, indentation);
      IndentedJoins(m.gap, value, indentation);
      OneLineStays(":", m.gap + value, indentation);
      var colon := [':'] + (m.gap + value);
      IndentedJoins(m.mid, colon, indentation);
      StringStays(m.key, m.mid + colon, indentation);
      IndentedJoins(m.before, EmitStr(m.key, m.mid + colon), indentation);
      assert IndentMembers(members, indentation)[1..] == IndentMembers(tail, indentation);
    }
  }

  lemma {:induction false} IndentedWs(s: string, indentation: string)
    requires AllWs(s) && AllWs(indentation)
    ensures AllWs(Indented(s, indentation))
  {
    if s != "" {
      IndentedWs(s[1..], indentation);
      WsJoins(if s[0] == '\n' then ['\n'] + indentation else [s[0]], Indented(s[1..], indentation));
      assert (['\n'] + indentation)[1..] == indentation;
    }
  }

  /** A re-indented text is as well formed as it was. */
  lemma {:induction false} IndentKeepsOk(v: Value, d: nat, indentation: string)
    requires ValueOk(v, d) && AllWs(indentation)
    ensures ValueOk(IndentValue(v, indentation), d)
    decreases v, 1
  {
    hide RawOk, NumOk, AllWs;
    if v.Arr? {
      IndentedWs(v.pad, indentation);
      IndentItemsOk(v.items, d + 1, indentation);
    } else if v.Obj? {
      IndentedWs(v.pad, indentation);
      IndentMembersOk(v.members, d + 1, {}, indentation);
    }
  }

  lemma {:induction false} IndentItemsOk(items: seq<Item>, d: nat, indentation: string)
    requires ItemsOk(items, d) && AllWs(indentation)
    ensures ItemsOk(IndentItems(items, indentation), d)
    decreases items, 0
  {
    hide ValueOk, AllWs;
    if items != [] {
      IndentedWs(items[0].before, indentation);
      IndentedWs(items[0].after, indentation);
      IndentKeepsOk(items[0].value, d, indentation);
      IndentItemsOk(items[1..], d, indentation);
      assert IndentItems(items, indentation)[1..] == IndentItems(items[1..], indentation);
    }
  }

  lemma {:induction false} IndentMembersOk(members: seq<Member>, d: nat, used: set<string>, indentation: string)
    requires MembersOk(members, d) && FreshKeys(members, used) && AllWs(indentation)
    ensures MembersOk(IndentMembers(members, indentation), d) && FreshKeys(IndentMembers(members, indentation), used)
    decreases members, 0
  {
    hide ValueOk, AllWs, RawOk;
    if members != [] {
      var m := members[0];
      IndentedWs(m.before, indentation);
      IndentedWs(m.mid, indentation);
      IndentedWs(m.gap, indentation);
      IndentedWs(m.after, indentation);
      IndentKeepsOk(m.value, d, indentation);
      IndentMembersOk(members[1..], d, used + {m.key}, indentation);
      assert IndentMembers(members, indentation)[1..] == IndentMembers(members[1..], indentation);
    }
  }

  /** IndentAfterNewline: terminates although every round makes the text longer. */
  method IndentAfterNewline(text: string, indentation: string) returns (value: string)
    ensures value == Indented(DropNewline(text), indentation)
  {
    value := text;
    if value != "" && value[|value| - 1] == '\n' { value := value[..|value| - 1]; }
    value := IndentLines(value, indentation);
  }

  /** The loop that looks for the next newline and inserts after it. */
  method IndentLines(text: string, indentation: string) returns (value: string)
    ensures value == Indented(text, indentation)
  {
    hide *;
    value := text;
    ghost var target := Indented(value, indentation);
    var position: nat := 0;
    assert value[..0] + target == target && value[0..] == value;
    while true
      invariant position <= |value| && target == value[..position] + Indented(value[position..], indentation)
      decreases |value| - position
    {
      var found := FindNewline(value, position);
      if found == |value| {
        assert value[position..found] == value[position..];
        LastLine(value[position..], indentation);
        return;
      }
      InsertionStep(value, position, found, indentation);
      value := value[..found + 1] + indentation + value[found + 1..];
      position := found + |indentation| + 1;
    }
  }

  /** What one insertion makes of the part already indented and the part still to be. */
  lemma InsertionStep(value: string, position: nat, found: nat, indentation: string)
    requires position <= found < |value| && value[found] == '\n' && OneLine(value[position..found])
    ensures var next, after := value[..found + 1] + indentation + value[found + 1..], found + |indentation| + 1;
            && after <= |next| && |next| - after < |value| - position
            && value[..position] + Indented(value[position..], indentation)
               == next[..after] + Indented(next[after..], indentation)
  {
    hide Indented, OneLine;
    var done, line, tail := value[..position], value[position..found], value[found + 1..];
    var next, after := value[..found + 1] + indentation + tail, found + |indentation| + 1;
    assert value[..found + 1] == done + line + ['\n'];
    assert value[position..] == line + (['\n'] + tail);
    assert next[..after] == done + line + ['\n'] + indentation && next[after..] == tail;
    RoundOfInsertion(done, line, tail, indentation);
  }

  lemma LastLine(line: string, indentation: string)
    requires OneLine(line)
    ensures Indented(line, indentation) == line
  {
    assert line + "" == line;
    OneLineStays(line, "", indentation);
    assert Indented("", indentation) == "";
  }

  lemma RoundOfInsertion(done: string, line: string, tail: string, indentation: string)
    requires OneLine(line)
    ensures done + Indented(line + (['\n'] + tail), indentation)
         == done + line + ['\n'] + indentation + Indented(tail, indentation)
  {
    OneLineStays(line, ['\n'] + tail, indentation);
    assert (['\n'] + tail)[1..] == tail;
  }

  /** std::string::find for a newline; the length of the text when there is none. */
  method FindNewline(value: string, from: nat) returns (i: nat)
    requires from <= |value|
    ensures from <= i <= |value| && OneLine(value[from..i]) && (i < |value| ==> value[i] == '\n')
  {
    i := from;
    while i < |value| && value[i] != '\n'
      invariant from <= i <= |value| && OneLine(value[from..i])
    {
      OneLineGrows(value[from..i], value[i]);
      assert value[from..i + 1] == value[from..i] + [value[i]];
      i := i + 1;
    }
  }

  lemma {:induction false} OneLineGrows(s: string, c: char)
    requires OneLine(s) && c != '\n'
    ensures OneLine(s + [c])
  {
    if s != "" {
      OneLineGrows(s[1..], c);
      assert (s + [c])[1..] == s[1..] + [c];
    }
  }

  // ----- Both reports are valid JSON -----

  lemma ObservationOk(o: Observation, run: u64, d: nat)
    requires d < MAXIMUM_DEPTH
    ensures ValueOk(InlineObject(ObservationFields(o, run)), d)
  {
    ObservationKeysAreDistinct();
    ObservationKeysAreWords();
    var f := ObservationFields(o, run);
    assert Named(f, OBSERVATION_KEYS);
    NamedKeysAreRaw(f, OBSERVATION_KEYS);
    hide AllWords, RawKeys;
    InlineObjectOk(f, d);
  }

  lemma ObservationsOk(os: seq<Observation>, d: nat)
    requires d < MAXIMUM_DEPTH && |os| <= MAXIMUM_UNSIGNED
    ensures ObjectsOk(ObservationValues(os), d)
  {
    hide ValueOk, ObservationFields, Laid;
    forall i | 0 <= i < |os| ensures ValueOk(InlineObject(ObservationFields(os[i], i + 1)), d) {
      ObservationOk(os[i], i + 1, d);
    }
  }

  lemma SummaryNamed(s: Summary)
    ensures Named(SummaryFields(s), BENCHMARK_KEYS)
  {
    hide Listed, ObservationValues, Successful;
  }

  lemma SummaryCells(s: Summary, d: nat)
    requires d <= 8 && |s.observations| <= MAXIMUM_UNSIGNED
    ensures CellsOk(SummaryFields(s), d)
  {
    hide ListedItems, ObservationValues, Successful, ValueOk, ObjectsOk;
    ObservationsOk(s.observations, d + 1);
    ListedOk(ObservationValues(s.observations), d);
  }

  lemma SummaryOk(s: Summary, d: nat)
    requires d < 8 && |s.observations| <= MAXIMUM_UNSIGNED
    ensures ValueOk(SummaryValue(s), d)
  {
    hide SummaryFields, AllWords, Distinct, AllWs;
    SummaryNamed(s);
    SummaryCells(s, d + 1);
    BenchmarkKeysAreDistinct();
    BenchmarkKeysAreWords();
    SpacesAreWs();
    LinesObjectOk(SummaryFields(s), BENCHMARK_KEYS, "", d);
  }

  /** JsonSyntaxValidator accepts every benchmark report. */
  lemma SummaryIsObjectText(s: Summary)
    requires |s.observations| <= MAXIMUM_UNSIGNED
    ensures JsonSyntax.IsObjectText(SummaryJson(s))
  {
    hide ValueOk, SummaryFields;
    SummaryOk(s, 0);
    SpacesAreWs();
    var t := JsonSyntax.Document(false, "", SummaryValue(s), "\n");
    assert JsonSyntax.DocumentText(t) == SummaryJson(s);
    assert JsonSyntax.DocumentOk(t);
  }

  function NestedReport(s: Summary): Value { IndentValue(SummaryValue(s), "  ") }

  /** A report nested in another is the same tree, re-indented. */
  lemma NestedReportText(s: Summary)
    requires |s.observations| <= MAXIMUM_UNSIGNED
    ensures ValueOk(NestedReport(s), 1) && NestedReport(s).Obj?
    ensures Indented(DropNewline(SummaryJson(s)), "  ") == JsonFields.Text(NestedReport(s))
  {
    hide Emit, ValueOk, SummaryFields, Lines;
    var v := SummaryValue(s);
    SummaryOk(s, 0);
    SummaryOk(s, 1);
    SpacesAreWs();
    IndentKeepsOk(v, 1, "  ");
    TextThenRest(v, "\n");
    IndentCommutes(v, 0, "", "  ");
  }

  function TailFields(c: Comparison): seq<Field> {
    [ Field("baseline", Nested(NestedReport(c.baseline))),
      Field("optimized", Nested(NestedReport(c.optimized))),
      Field("delta", Nested(LinesObject(DeltaFields(c), "  "))) ]
  }

  function ComparisonFields(c: Comparison): seq<Field> { HeadFields(c) + TailFields(c) }
  function ComparisonValue(c: Comparison): Value { LinesObject(ComparisonFields(c), "") }

  lemma ComparisonNamed(c: Comparison)
    ensures Named(ComparisonFields(c), COMPARISON_KEYS)
  {
    hide NestedReport, LinesObject;
  }

  lemma DeltaOk(c: Comparison, d: nat)
    requires d < MAXIMUM_DEPTH
    ensures ValueOk(LinesObject(DeltaFields(c), "  "), d)
  {
    MedianKeysAreDistinct();
    MedianKeysAreWords();
    SpacesAreWs();
    assert Named(DeltaFields(c), MEDIAN_KEYS);
    hide AllWords, Distinct, AllWs;
    LinesObjectOk(DeltaFields(c), MEDIAN_KEYS, "  ", d);
  }

  predicate Fits(c: Comparison) {
    |c.baseline.observations| <= MAXIMUM_UNSIGNED && |c.optimized.observations| <= MAXIMUM_UNSIGNED
  }

  lemma ComparisonCells(c: Comparison)
    requires Fits(c)
    ensures CellsOk(ComparisonFields(c), 1)
  {
    hide NestedReport, Lines, ValueOk, DeltaFields, NumOk, IsWord, Emit, Indented, SummaryJson;
    NestedReportText(c.baseline);
    NestedReportText(c.optimized);
    DeltaOk(c, 1);
  }

  lemma ComparisonOk(c: Comparison)
    requires Fits(c)
    ensures ValueOk(ComparisonValue(c), 0)
  {
    hide ComparisonFields, AllWords, Distinct, AllWs;
    ComparisonNamed(c);
    ComparisonCells(c);
    ComparisonKeysAreDistinct();
    ComparisonKeysAreWords();
    SpacesAreWs();
    LinesObjectOk(ComparisonFields(c), COMPARISON_KEYS, "", 0);
  }

  // The stream of the printer, one nested value at a time.

  lemma {:induction false} LaidSplits(a: seq<Field>, b: seq<Field>, w: string, last: string)
    requires b != []
    ensures Laid(a + b, w, w, last) == Laid(a, w, w, "") + Laid(b, w, w, last)
  {
    hide Shown;
    if a == [] {
      assert a + b == b;
    } else {
      assert (a + b)[0] == a[0] && (a + b)[1..] == a[1..] + b;
      LaidSplits(a[1..], b, w, last);
    }
  }

  /** The text of one nested field and what follows it. */
  lemma NestedFieldText(key: string, value: Value, last: string, more: string)
    ensures var m := Member("\n  ", key, "", " ", value, last);
            m.before + EmitStr(m.key, m.mid + ([':'] + (m.gap + Emit(m.value, m.after + more))))
              == Opening(key) + (JsonFields.Text(value) + (last + more))
  {
    TextThenRest(value, last + more);
    var body := JsonFields.Text(value) + (last + more);
    hide Emit, JsonFields.Text;
    assert "" + ([':'] + (" " + body)) == ": " + body;
    assert "\n  " + EmitStr(key, ": " + body) == Opening(key) + body;
  }

  /** A nested field printed before others, or last. */
  lemma NestedFieldEmitted(key: string, value: Value, last: string, tail: seq<Member>, rest: string)
    ensures EmitMembers([Member("\n  ", key, "", " ", value, last)] + tail, rest)
         == Opening(key) + (JsonFields.Text(value) + (last + MoreMembers(tail, rest)))
  {
    var m := Member("\n  ", key, "", " ", value, last);
    assert ([m] + tail)[1..] == tail;
    NestedFieldText(key, value, last, MoreMembers(tail, rest));
  }

  lemma TailText(c: Comparison)
    ensures EmitMembers(Laid(TailFields(c), "\n  ", "\n  ", "\n"), "}\n")
         == Opening("baseline") + (JsonFields.Text(NestedReport(c.baseline)) + ([',']
            + (Opening("optimized") + (JsonFields.Text(NestedReport(c.optimized)) + ([',']
            + (Opening("delta") + (JsonFields.Text(LinesObject(DeltaFields(c), "  ")) + "\n}\n")))))))
  {
    hide NestedReport, LinesObject, EmitMembers, Laid, Opening;
    LaidThree(TailFields(c), "\n  ", "\n");
    ThreeNested(NestedReport(c.baseline), NestedReport(c.optimized), LinesObject(DeltaFields(c), "  "));
  }

  lemma ThreeNested(baseline: Value, optimized: Value, delta: Value)
    ensures
      var w := "\n  ";
      EmitMembers([Member(w, "baseline", "", " ", baseline, ""), Member(w, "optimized", "", " ", optimized, ""),
                   Member(w, "delta", "", " ", delta, "\n")], "}\n")
      == Opening("baseline") + (JsonFields.Text(baseline) + ([',']
         + (Opening("optimized") + (JsonFields.Text(optimized) + ([',']
         + (Opening("delta") + (JsonFields.Text(delta) + "\n}\n")))))))
  {
    var w := "\n  ";
    var m0 := Member(w, "baseline", "", " ", baseline, "");
    var m1 := Member(w, "optimized", "", " ", optimized, "");
    var m2 := Member(w, "delta", "", " ", delta, "\n");
    hide JsonFields.Text, EmitStr, Opening, EmitMembers;
    NestedFieldEmitted("delta", delta, "\n", [], "}\n");
    NestedFieldEmitted("optimized", optimized, "", [m2], "}\n");
    NestedFieldEmitted("baseline", baseline, "", [m1, m2], "}\n");
    assert [m0, m1, m2] == [m0] + [m1, m2] && [m1, m2] == [m1] + [m2] && [m2] == [m2] + [];
    assert "\n" + "}\n" == "\n}\n";
    assert forall more: string :: "" + more == more;
  }

  lemma LaidThree(f: seq<Field>, w: string, last: string)
    requires |f| == 3
    ensures Laid(f, w, w, last)
         == [ Member(w, f[0].key, "", " ", Shown(f[0].cell), ""), Member(w, f[1].key, "", " ", Shown(f[1].cell), ""),
              Member(w, f[2].key, "", " ", Shown(f[2].cell), last) ]
  {
    hide Shown;
    var f1, f2 := f[1..], f[2..];
    assert f1[1..] == f2 && f2[1..] == [];
    assert Laid([], w, w, last) == [];
    assert Laid(f2, w, w, last) == [Member(w, f[2].key, "", " ", Shown(f[2].cell), last)];
    assert Laid(f1, w, w, last) == [Member(w, f[1].key, "", " ", Shown(f[1].cell), "")] + Laid(f2, w, w, last);
  }

  /** The printed comparison is the text of one object. */
  lemma ComparisonIsOneObject(c: Comparison)
    requires Fits(c)
    ensures ComparisonJson(c) == Emit(ComparisonValue(c), "\n")
  {
    hide Emit, Indented, DropNewline, SummaryJson, EmitMembers, HeadFields, TailFields, NestedReport, JsonFields.Text,
      Opening, LinesObject;
    var w := "\n  ";
    NestedReportText(c.baseline);
    NestedReportText(c.optimized);
    TailText(c);
    assert |HeadFields(c)| == 5 && |TailFields(c)| == 3 by { PartSizes(c); }
    var a, b := Laid(HeadFields(c), w, w, ""), Laid(TailFields(c), w, w, "\n");
    LaidSplits(HeadFields(c), TailFields(c), w, "\n");
    EmitJoined(a, b, "}\n");
    ComparisonText(c);
  }

  lemma PartSizes(c: Comparison)
    ensures |HeadFields(c)| == 5 && |TailFields(c)| == 3
  {
  }

  lemma ComparisonText(c: Comparison)
    ensures Emit(ComparisonValue(c), "\n")
         == ['{'] + EmitMembers(Laid(ComparisonFields(c), "\n  ", "\n  ", "\n"), "}\n")
  {
    hide EmitMembers, ComparisonFields;
    assert "\n" + "" + "  " == "\n  " && "\n" + "" == "\n" && ['}'] + "\n" == "}\n";
    var body := EmitMembers(Laid(ComparisonFields(c), "\n  ", "\n  ", "\n"), "}\n");
    assert "" + body == body;
  }

  /** JsonSyntaxValidator accepts every comparison, whatever the nested reports contain. */
  lemma ComparisonIsObjectText(c: Comparison)
    requires Fits(c)
    ensures JsonSyntax.IsObjectText(ComparisonJson(c))
  {
    hide ValueOk, ComparisonFields, ComparisonJson, Emit;
    ComparisonOk(c);
    ComparisonIsOneObject(c);
    SpacesAreWs();
    var t := JsonSyntax.Document(false, "", ComparisonValue(c), "\n");
    assert JsonSyntax.DocumentText(t) == ComparisonJson(c);
    assert JsonSyntax.DocumentOk(t);
  }
}
