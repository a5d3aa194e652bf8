/** How the printers lay out objects and arrays, and how what they print reads back, field by field. */
module JsonLayout {
  import opened Types
  import opened Words
  import opened JsonText
  import opened JsonScan
  import opened JsonFields

  // ----- Words: texts that need no escaping -----

  lemma {:induction false} WordIsPlain(s: string)
    requires IsWord(s)
    ensures RawOk(s) && Escaped(s) == s
  {
    if s != "" {
      WordIsPlain(s[1..]);
      assert WordChar(s[0]);
    }
  }

  // ----- Fields -----

  /** What a field shows; the name of an enumerator is printed without a pass through JsonEscape. */
  datatype Cell = Text(text: string) | Name(name: string) | Natural(n: nat) | Real(num: Double) | Flag(on: bool)
    | Null | Nested(value: Value)

  function Shown(c: Cell): Value {
    match c
    case Text(text) => Str(Escaped(text))
    case Name(name) => Str(name)
    case Natural(n) => Whole(n)
    case Real(num) => Number(num)
    case Flag(on) => Bool(on)
    case Null => Literal("null")
    case Nested(value) => value
  }

  datatype Field = Field(key: string, cell: Cell)

  /** The fields are named by `keys`, in order. */
  predicate Named(fields: seq<Field>, keys: seq<string>) {
    |fields| == |keys| && forall i | 0 <= i < |keys| :: fields[i].key == keys[i]
  }

  predicate RawKeys(fields: seq<Field>) {
    forall i | 0 <= i < |fields| :: RawOk(fields[i].key)
  }

  /** A cell that can stand at depth `d`. */
  predicate CellOk(c: Cell, d: nat) {
    && d <= MAXIMUM_DEPTH
    && (c.Name? ==> IsWord(c.name))
    && (c.Natural? ==> c.n <= MAXIMUM_UNSIGNED)
    && (c.Nested? ==> (c.value.Obj? || c.value.Arr?) && ValueOk(c.value, d))
  }

  predicate CellsOk(fields: seq<Field>, d: nat) {
    forall i | 0 <= i < |fields| :: CellOk(fields[i].cell, d)
  }

  lemma ShownOk(c: Cell, d: nat)
    requires CellOk(c, d)
    ensures ValueOk(Shown(c), d)
  {
    match c
    case Text(text) => EscapedIsRaw(text);
    case Name(name) => WordIsPlain(name);
    case Natural(n) => WholeOk(n, d);
    case Real(num) =>
    case Flag(on) =>
    case Null =>
    case Nested(value) =>
  }

  // ----- Laying out an object -----

  /** `"key": value` for each field: `first` before the first, `next` before the others, `last` after the last. */
  function Laid(fields: seq<Field>, first: string, next: string, last: string): (members: seq<Member>)
    ensures |members| == |fields|
    ensures forall i | 0 <= i < |fields| :: members[i].key == fields[i].key && members[i].value == Shown(fields[i].cell)
  {
    if fields == [] then []
    else
      var after := if |fields| == 1 then last else "";
      [Member(first, fields[0].key, "", " ", Shown(fields[0].cell), after)] + Laid(fields[1..], next, next, last)
  }

  /** One field a line, two spaces further in than `pad`. */
  function Lines(fields: seq<Field>, pad: string): seq<Member> {
    Laid(fields, "\n" + pad + "  ", "\n" + pad + "  ", "\n" + pad)
  }

  function LinesObject(fields: seq<Field>, pad: string): Value { Obj("", Lines(fields, pad)) }

  /** All fields on one line. */
  function InlineObject(fields: seq<Field>): Value { Obj("", Laid(fields, "", " ", "")) }

  lemma {:induction false} WsJoins(a: string, b: string)
    requires AllWs(a) && AllWs(b)
    ensures AllWs(a + b)
  {
    if a == "" {
      assert a + b == b;
    } else {
      assert (a + b)[1..] == a[1..] + b;
      WsJoins(a[1..], b);
    }
  }

  lemma SpacesAreWs()
    ensures AllWs("") && AllWs(" ") && AllWs("  ") && AllWs("    ") && AllWs("\n") && AllWs("\n  ") && AllWs("\n    ")
  {
  }

  lemma {:induction false} LaidOk(fields: seq<Field>, first: string, next: string, last: string, d: nat)
    requires AllWs(first) && AllWs(next) && AllWs(last) && RawKeys(fields) && CellsOk(fields, d)
    ensures MembersOk(Laid(fields, first, next, last), d)
  {
    hide ValueOk, RawOk, CellOk, Shown;
    if fields != [] {
      ShownOk(fields[0].cell, d);
      assert CellsOk(fields[1..], d);
      LaidOk(fields[1..], next, next, last, d);
      assert Laid(fields, first, next, last)[1..] == Laid(fields[1..], next, next, last);
    }
  }

  lemma LinesOk(fields: seq<Field>, pad: string, d: nat)
    requires AllWs(pad) && RawKeys(fields) && CellsOk(fields, d)
    ensures MembersOk(Lines(fields, pad), d)
  {
    SpacesAreWs();
    hide AllWs;
    WsJoins("\n", pad);
    WsJoins("\n" + pad, "  ");
    LaidOk(fields, "\n" + pad + "  ", "\n" + pad + "  ", "\n" + pad, d);
  }

  lemma NamedKeysAreRaw(fields: seq<Field>, keys: seq<string>)
    requires Named(fields, keys) && AllWords(keys)
    ensures RawKeys(fields)
  {
    forall i | 0 <= i < |fields| ensures RawOk(fields[i].key) {
      WordIsPlain(fields[i].key);
    }
  }

  lemma LinesObjectOk(fields: seq<Field>, keys: seq<string>, pad: string, d: nat)
    requires AllWs(pad) && Named(fields, keys) && Distinct(keys) && AllWords(keys) && CellsOk(fields, d + 1)
    requires d <= MAXIMUM_DEPTH
    ensures ValueOk(LinesObject(fields, pad), d)
  {
    SpacesAreWs();
    NamedKeysAreRaw(fields, keys);
    hide AllWs, IsWord, CellsOk, RawKeys;
    LinesOk(fields, pad, d + 1);
    FreshKeysMeansDistinct(Lines(fields, pad), {});
  }

  lemma InlineObjectOk(fields: seq<Field>, d: nat)
    requires RawKeys(fields) && CellsOk(fields, d + 1) && d <= MAXIMUM_DEPTH
    requires forall i, j | 0 <= i < j < |fields| :: fields[i].key != fields[j].key
    ensures ValueOk(InlineObject(fields), d)
  {
    SpacesAreWs();
    hide AllWs, CellsOk, RawKeys;
    LaidOk(fields, "", " ", "", d + 1);
    FreshKeysMeansDistinct(Laid(fields, "", " ", ""), {});
  }

  // ----- Laying out an array -----

  /** One element a line, as every array of the session and report files is printed. */
  function ListedItems(values: seq<Value>): seq<Item> {
    if values == [] then []
    else [Item("\n    ", values[0], if |values| == 1 then "\n  " else "")] + ListedItems(values[1..])
  }

  function Listed(values: seq<Value>): Value { Arr(if values == [] then "  " else "", ListedItems(values)) }

  predicate ObjectsOk(values: seq<Value>, d: nat) {
    forall i | 0 <= i < |values| :: values[i].Obj? && ValueOk(values[i], d)
  }

  lemma {:induction false} ListedItemsOk(values: seq<Value>, d: nat)
    requires ObjectsOk(values, d)
    ensures |ListedItems(values)| == |values|
    ensures forall i | 0 <= i < |values| :: ListedItems(values)[i].value == values[i]
    ensures ItemsOk(ListedItems(values), d) && AllObjects(ListedItems(values))
  {
    hide ValueOk;
    if values != [] {
      assert ObjectsOk(values[1..], d);
      ListedItemsOk(values[1..], d);
      SpacesAreWs();
      assert ListedItems(values)[1..] == ListedItems(values[1..]);
    }
  }

  lemma ListedOk(values: seq<Value>, d: nat)
    requires ObjectsOk(values, d + 1) && d <= MAXIMUM_DEPTH
    ensures ValueOk(Listed(values), d)
  {
    hide ObjectsOk, AllObjects;
    ListedItemsOk(values, d + 1);
    SpacesAreWs();
  }

  // ----- Reading fields back -----

  /** The typed reader gives the cell back. */
  ghost predicate Reads(json: string, key: string, c: Cell) {
    match c
    case Text(text) => StringOf(json, key) == Some(text)
    case Name(name) => StringOf(json, key) == Some(name)
    case Natural(n) => IntegerOf(json, key) == Some(n)
    case Real(num) => DoubleOf(json, key) == Some(num)
    case Flag(on) => BoolOf(json, key) == Some(on)
    case Null => true
    case Nested(value) =>
      DelimitedText(json, key, if value.Obj? then '{' else '[', if value.Obj? then '}' else ']')
        == Some(JsonFields.Text(value))
  }

  lemma CellReads(json: string, v: Value, i: nat, key: string, c: Cell)
    requires HasField(json, v, i, key, Shown(c)) && CellOk(c, 1)
    ensures Reads(json, key, c)
  {
    hide HasField, StringOf, IntegerOf, DoubleOf, BoolOf, DelimitedText, ValueOk;
    match c
    case Text(text) => StringReads(json, v, i, key, text);
    case Name(name) =>
      WordIsPlain(name);
      StringReads(json, v, i, key, name);
    case Natural(n) => IntegerReads(json, v, i, key, n);
    case Real(num) => DoubleReads(json, v, i, key, num);
    case Flag(on) => BoolReads(json, v, i, key, on);
    case Null =>
    case Nested(value) => DelimitedReads(json, v, i, key, value);
  }

  /** The object `v` is made of `fields`. */
  predicate MadeOf(v: Value, fields: seq<Field>) {
    v.Obj? && |v.members| == |fields|
    && forall i | 0 <= i < |fields| :: v.members[i].key == fields[i].key && v.members[i].value == Shown(fields[i].cell)
  }

  /** Every field of a printed object reads back. */
  lemma FieldsRead(v: Value, fields: seq<Field>, rest: string)
    requires MadeOf(v, fields) && ValueOk(v, 0) && CellsOk(fields, 1)
    ensures forall i | 0 <= i < |fields| :: Reads(Emit(v, rest), fields[i].key, fields[i].cell)
  {
    var json := Emit(v, rest);
    assert json == "" + json && AllWs("");
    hide Emit, Reads, ValueOk, CellOk, AllWs;
    forall i | 0 <= i < |fields| ensures Reads(json, fields[i].key, fields[i].cell) {
      assert CellOk(fields[i].cell, 1);
      CellReads(json, v, i, fields[i].key, fields[i].cell);
    }
  }

  lemma LinesRead(fields: seq<Field>, keys: seq<string>, pad: string, rest: string)
    requires AllWs(pad) && Named(fields, keys) && Distinct(keys) && AllWords(keys) && CellsOk(fields, 1)
    ensures forall i | 0 <= i < |keys| :: Reads(Emit(LinesObject(fields, pad), rest), keys[i], fields[i].cell)
  {
    LinesObjectOk(fields, keys, pad, 0);
    hide Emit, Reads, ValueOk, CellsOk, AllWs, AllWords, Distinct;
    FieldsRead(LinesObject(fields, pad), fields, rest);
  }

  lemma ListReads(json: string, v: Value, i: nat, key: string, values: seq<Value>)
    requires HasField(json, v, i, key, Listed(values)) && ObjectsOk(values, 2)
    ensures var body := ArrayBodyOf(json, key);
            body.Some? && ObjectTexts(body.value) == Texts(ListedItems(values))
  {
    hide HasField, ArrayBodyOf, ObjectTexts;
    ListedOk(values, 1);
    ListedItemsOk(values, 2);
    ArrayReads(json, v, i, key, Listed(values));
  }
}
