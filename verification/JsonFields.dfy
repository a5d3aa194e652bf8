/** Typed fields of a session file: what the printers write for a value, and what the readers make of it. */
module JsonFields {
  import opened Types
  import opened JsonText
  import opened JsonScan
  import JsonSyntax

  // ----- Splitting what follows off a text -----

  lemma {:induction false} EmitSplits(v: Value, a: string, rest: string)
    ensures Emit(v, a + rest) == Emit(v, a) + rest
    decreases v, 1
  {
    match v
    case Literal(text) => assert text + (a + rest) == text + a + rest;
    case Number(n) => NumSplits(n, a, rest);
    case Str(raw) => StrSplits(raw, a, rest);
    case Arr(pad, items) =>
      assert [']'] + (a + rest) == ([']'] + a) + rest;
      ItemsSplit(items, [']'] + a, rest);
      Concat3(['['], pad, EmitItems(items, [']'] + a), rest);
    case Obj(pad, members) =>
      assert ['}'] + (a + rest) == (['}'] + a) + rest;
      MembersSplit(members, ['}'] + a, rest);
      Concat3(['{'], pad, EmitMembers(members, ['}'] + a), rest);
  }

  lemma Concat3(x: string, y: string, z: string, rest: string)
    ensures x + (y + (z + rest)) == (x + (y + z)) + rest
  {
  }

  lemma StrSplits(raw: string, a: string, rest: string)
    ensures EmitStr(raw, a + rest) == EmitStr(raw, a) + rest
  {
  }

  lemma NumSplits(n: Num, a: string, rest: string)
    ensures EmitNum(n, a + rest) == EmitNum(n, a) + rest
  {
    var e := EmitExponent(n.exponent, a);
    assert EmitExponent(n.exponent, a + rest) == e + rest;
    assert EmitFraction(n.fraction, e + rest) == EmitFraction(n.fraction, e) + rest;
    Concat3(if n.minus then "-" else "", n.whole, EmitFraction(n.fraction, e), rest);
  }

  lemma {:induction false} ItemsSplit(items: seq<Item>, a: string, rest: string)
    ensures EmitItems(items, a + rest) == EmitItems(items, a) + rest
    decreases items, 0
  {
    hide Emit;
    if items != [] {
      var item, tail := items[0], items[1..];
      var more := MoreItems(tail, a);
      if tail != [] {
        ItemsSplit(tail, a, rest);
        assert [','] + (EmitItems(tail, a) + rest) == more + rest;
      }
      assert item.after + (more + rest) == (item.after + more) + rest;
      EmitSplits(item.value, item.after + more, rest);
      assert item.before + (Emit(item.value, item.after + more) + rest) == EmitItems(items, a) + rest;
    }
  }

  lemma {:induction false} MembersSplit(members: seq<Member>, a: string, rest: string)
    ensures EmitMembers(members, a + rest) == EmitMembers(members, a) + rest
    decreases members, 0
  {
    hide Emit, EmitStr;
    if members != [] {
      var m, tail := members[0], members[1..];
      var more := MoreMembers(tail, a);
      if tail != [] {
        MembersSplit(tail, a, rest);
        assert [','] + (EmitMembers(tail, a) + rest) == more + rest;
      }
      assert m.after + (more + rest) == (m.after + more) + rest;
      var value := Emit(m.value, m.after + more);
      EmitSplits(m.value, m.after + more, rest);
      Concat3(m.mid, [':'], m.gap + value, rest);
      assert m.gap + (value + rest) == (m.gap + value) + rest;
      var colon := m.mid + ([':'] + (m.gap + value));
      StrSplits(m.key, colon, rest);
      assert m.before + (EmitStr(m.key, colon) + rest) == EmitMembers(members, a) + rest;
    }
  }

  lemma {:induction false} EmitJoined(a: seq<Member>, b: seq<Member>, rest: string)
    requires a != [] && b != []
    ensures EmitMembers(a + b, rest) == EmitMembers(a, [','] + EmitMembers(b, rest))
  {
    hide Emit, EmitStr;
    assert (a + b)[0] == a[0] && (a + b)[1..] == a[1..] + b;
    if |a| > 1 {
      EmitJoined(a[1..], b, rest);
    } else {
      assert a[1..] + b == b;
    }
  }

  /** The text of a value on its own. */
  function Text(v: Value): string { Emit(v, "") }

  lemma TextThenRest(v: Value, rest: string)
    ensures Emit(v, rest) == Text(v) + rest
  {
    hide Emit;
    EmitSplits(v, "", rest);
    assert "" + rest == rest;
  }

  // ----- Strings -----

  const BACKSPACE: char := 8 as char
  const FORM_FEED: char := 12 as char

  function HexDigit(n: int): char
    requires 0 <= n < 16
  {
    if n < 10 then '0' + n as char else 'a' + (n - 10) as char
  }

  function EscapeChar(c: char): string {
    if c == '"' then "\\\""
    else if c == '\\' then "\\\\"
    else if c == BACKSPACE then "\\b"
    else if c == FORM_FEED then "\\f"
    else if c == '\n' then "\\n"
    else if c == '\r' then "\\r"
    else if c == '\t' then "\\t"
    else if c < ' ' then ['\\', 'u', '0', '0', HexDigit(c as int / 16), HexDigit(c as int % 16)]
    else [c]
  }

  function Escaped(s: string): string {
    if s == "" then "" else EscapeChar(s[0]) + Escaped(s[1..])
  }

  function HexValue(c: char): int {
    if '0' <= c <= '9' then c as int - '0' as int
    else if 'a' <= c <= 'f' then c as int - 'a' as int + 10
    else if 'A' <= c <= 'F' then c as int - 'A' as int + 10
    else -1
  }

  /** AppendUtf8CodeUnit: the UTF-8 bytes of a code unit that is not a surrogate. */
  function CodeUnitText(value: int): Option<string>
    requires 0 <= value < 0x10000
  {
    if value <= 0x7f then Some([value as char])
    else if value <= 0x7ff then Some([(0xc0 + value / 64) as char, (0x80 + value % 64) as char])
    else if value < 0xd800 || value > 0xdfff then
      Some([(0xe0 + value / 4096) as char, (0x80 + value / 64 % 64) as char, (0x80 + value % 64) as char])
    else None
  }

  function CodeUnit(s: string): Option<int>
    requires |s| >= 4
  {
    var a, b, c, d := HexValue(s[0]), HexValue(s[1]), HexValue(s[2]), HexValue(s[3]);
    if a < 0 || b < 0 || c < 0 || d < 0 then None else Some(((a * 16 + b) * 16 + c) * 16 + d)
  }

  function SimpleEscape(c: char): Option<char> {
    match c
    case '"' => Some('"')
    case '\\' => Some('\\')
    case '/' => Some('/')
    case 'b' => Some(BACKSPACE)
    case 'f' => Some(FORM_FEED)
    case 'n' => Some('\n')
    case 'r' => Some('\r')
    case 't' => Some('\t')
    case _ => None
  }

  function Prepend(head: string, tail: Option<string>): Option<string> {
    if tail.None? then None else Some(head + tail.value)
  }

  /** The value of a string whose contents start at `s`. */
  function Unescaped(s: string): Option<string> {
    if s == "" then None
    else if s[0] == '"' then Some("")
    else if s[0] != '\\' then (if s[0] < ' ' then None else Prepend([s[0]], Unescaped(s[1..])))
    else if |s| < 2 then None
    else if s[1] == 'u' then
      if |s| < 6 then None
      else
        var unit :- CodeUnit(s[2..]);
        if !(0 <= unit < 0x10000) then None
        else
          var text :- CodeUnitText(unit);
          Prepend(text, Unescaped(s[6..]))
    else
      var c :- SimpleEscape(s[1]);
      Prepend([c], Unescaped(s[2..]))
  }

  lemma {:induction false} EscapedIsRaw(s: string)
    ensures RawOk(Escaped(s))
  {
    if s != "" {
      EscapedIsRaw(s[1..]);
      EscapedCharIsRaw(s[0], Escaped(s[1..]));
    }
  }

  lemma EscapedCharIsRaw(c: char, tail: string)
    requires RawOk(tail)
    ensures RawOk(EscapeChar(c) + tail)
  {
    var e := EscapeChar(c);
    assert (e + tail)[|e|..] == tail;
    if |e| == 6 {
      assert (e + tail)[2..] == ['0', '0', e[4], e[5]] + tail;
    }
  }

  lemma HexRoundTrip(n: int)
    requires 0 <= n < 16
    ensures HexValue(HexDigit(n)) == n && IsHex(HexDigit(n))
  {
  }

  lemma EscapedThen(s: string, rest: string)
    requires s != ""
    ensures Escaped(s) + rest == EscapeChar(s[0]) + (Escaped(s[1..]) + rest)
  {
    hide EscapeChar;
    assert EscapeChar(s[0]) + (Escaped(s[1..]) + rest) == EscapeChar(s[0]) + Escaped(s[1..]) + rest;
  }

  lemma UnescapedChar(c: char, tail: string)
    ensures Unescaped(EscapeChar(c) + tail) == Prepend([c], Unescaped(tail))
  {
    if c < ' ' && |EscapeChar(c)| == 6 {
      UnescapedControl(c, tail);
    } else {
      UnescapedPlain(c, tail);
    }
  }

  lemma UnescapedControl(c: char, tail: string)
    requires c < ' ' && |EscapeChar(c)| == 6
    ensures Unescaped(EscapeChar(c) + tail) == Prepend([c], Unescaped(tail))
  {
    var e := EscapeChar(c);
    assert e == ['\\', 'u', '0', '0', HexDigit(c as int / 16), HexDigit(c as int % 16)];
    var s := e + tail;
    assert s[|e|..] == tail;
    HexRoundTrip(c as int / 16);
    HexRoundTrip(c as int % 16);
    assert s[2..][0] == '0' && s[2..][1] == '0' && s[2..][2] == e[4] && s[2..][3] == e[5];
    assert CodeUnit(s[2..]) == Some(c as int);
    hide EscapeChar, CodeUnit, HexDigit, HexValue, Escaped;
  }

  lemma UnescapedPlain(c: char, tail: string)
    requires |EscapeChar(c)| != 6
    ensures Unescaped(EscapeChar(c) + tail) == Prepend([c], Unescaped(tail))
  {
    hide Unescaped;
    if |EscapeChar(c)| == 1 {
      PlainIsRead(c, tail);
    } else {
      PairIsRead(c, EscapeChar(c)[1], tail);
    }
  }

  lemma PlainIsRead(c: char, tail: string)
    requires c != '"' && c != '\\' && c >= ' '
    ensures Unescaped([c] + tail) == Prepend([c], Unescaped(tail))
  {
    hide CodeUnit, CodeUnitText, SimpleEscape, Prepend;
    assert ([c] + tail)[1..] == tail;
  }

  lemma PairIsRead(c: char, letter: char, tail: string)
    requires letter != 'u' && SimpleEscape(letter) == Some(c)
    ensures Unescaped(['\\', letter] + tail) == Prepend([c], Unescaped(tail))
  {
    hide CodeUnit, CodeUnitText, SimpleEscape, Prepend;
    assert (['\\', letter] + tail)[2..] == tail;
  }

  /** Reading undoes escaping, on every byte string. */
  lemma {:induction false} UnescapeUndoesEscape(s: string, rest: string)
    ensures Unescaped(Escaped(s) + (['"'] + rest)) == Some(s)
  {
    if s == "" {
      assert Escaped(s) + (['"'] + rest) == ['"'] + rest;
    } else {
      hide Unescaped, EscapeChar, Escaped;
      var tail := Escaped(s[1..]) + (['"'] + rest);
      UnescapeUndoesEscape(s[1..], rest);
      assert s == [s[0]] + s[1..];
      UnescapedChar(s[0], tail);
      EscapedThen(s, ['"'] + rest);
    }
  }

  lemma EscapedIsInjective(a: string, b: string)
    ensures Escaped(a) == Escaped(b) ==> a == b
  {
    UnescapeUndoesEscape(a, "");
    UnescapeUndoesEscape(b, "");
  }

  // ----- Integers -----

  function DigitChar(n: int): char
    requires 0 <= n < 10
  {
    '0' + n as char
  }

  function Decimal(n: nat): (s: string)
    ensures s != ""
  {
    if n < 10 then [DigitChar(n)] else Decimal(n / 10) + [DigitChar(n % 10)]
  }

  function DigitsValue(s: string): nat
    requires AllDigits(s)
    decreases |s|
  {
    if s == "" then 0
    else
      DigitsFromTheEnd(s);
      DigitsValue(s[..|s| - 1]) * 10 + (s[|s| - 1] as int - '0' as int)
  }

  lemma {:induction false} DigitsFromTheEnd(s: string)
    requires AllDigits(s) && s != ""
    ensures AllDigits(s[..|s| - 1]) && IsDigit(s[|s| - 1])
  {
    if |s| > 1 {
      DigitsFromTheEnd(s[1..]);
      assert s[1..][..|s| - 2] == s[..|s| - 1][1..];
    }
  }

  lemma {:induction false} DigitsJoin(a: string, b: string)
    requires AllDigits(a) && AllDigits(b)
    ensures AllDigits(a + b)
  {
    if a == "" {
      assert a + b == b;
    } else {
      DigitsJoin(a[1..], b);
      assert (a + b)[1..] == a[1..] + b;
    }
  }

  lemma {:induction false} DecimalReads(n: nat)
    ensures AllDigits(Decimal(n)) && DigitsValue(Decimal(n)) == n
    ensures Decimal(n)[0] == '0' ==> n == 0
  {
    if n >= 10 {
      DecimalReads(n / 10);
      DigitsJoin(Decimal(n / 10), [DigitChar(n % 10)]);
      assert Decimal(n)[..|Decimal(n)| - 1] == Decimal(n / 10);
    }
  }

  function Whole(n: nat): Value { Number(Num(false, Decimal(n), None, None)) }

  lemma WholeOk(n: nat, d: nat)
    requires d <= MAXIMUM_DEPTH
    ensures ValueOk(Whole(n), d)
  {
    DecimalReads(n);
  }

  /** IsJsonValueDelimiter. */
  predicate IsDelimiter(c: char) { c == ',' || c == '}' || c == ']' || IsSpace(c) }

  predicate AtDelimiter(s: string) { s == "" || IsDelimiter(s[0]) }

  const MAXIMUM_UNSIGNED := 0xffff_ffff_ffff_ffff

  function DigitRun(s: string): (r: string)
    ensures AllDigits(r) && r <= s
  {
    if s != "" && IsDigit(s[0]) then [s[0]] + DigitRun(s[1..]) else ""
  }

  lemma {:induction false} DigitRunReads(digits: string, rest: string)
    requires AllDigits(digits) && (rest == "" || !IsDigit(rest[0]))
    ensures DigitRun(digits + rest) == digits
  {
    if digits == "" {
      assert digits + rest == rest;
    } else {
      assert (digits + rest)[1..] == digits[1..] + rest;
      DigitRunReads(digits[1..], rest);
    }
  }

  // ----- Doubles, as number tokens -----

  function TakeWhole(s: string): Option<(string, string)> {
    var s1 :- JsonSyntax.PWhole(s);
    Some((s[..|s| - |s1|], s1))
  }

  function TakeFraction(s: string): Option<(Option<string>, string)> {
    var s1 :- JsonSyntax.PFraction(s);
    Some((if |s| > |s1| then Some(s[1..|s| - |s1|]) else None, s1))
  }

  function TakeExponent(s: string): Option<(Option<Exponent>, string)> {
    var s1 :- JsonSyntax.PExponent(s);
    if |s| > |s1| then
      var unsigned := JsonSyntax.SkipSign(s[1..]);
      if |unsigned| < |s1| then None
      else Some((Some(Exponent(s[0], s[1..|s| - |unsigned|], unsigned[..|unsigned| - |s1|])), s1))
    else Some((None, s1))
  }

  function TakeUnsigned(s: string): Option<(Num, string)> {
    var (whole, s1) :- TakeWhole(s);
    var (fraction, s2) :- TakeFraction(s1);
    var (exponent, s3) :- TakeExponent(s2);
    Some((Num(false, whole, fraction, exponent), s3))
  }

  /** The number at the start of `s` and what follows it. */
  function TakeNum(s: string): Option<(Num, string)> {
    if s != "" && s[0] == '-' then
      var (n, rest) :- TakeUnsigned(s[1..]);
      Some((n.(minus := true), rest))
    else TakeUnsigned(s)
  }

  lemma ExponentTaken(e: Option<Exponent>, rest: string)
    requires (e.Some? ==> ExponentOk(e.value)) && JsonSyntax.Stops(rest)
    ensures TakeExponent(EmitExponent(e, rest)) == Some((e, rest))
  {
    JsonSyntax.ExponentEmitted(e, rest);
    if e.Some? {
      var body := e.value.digits + rest;
      var s2 := EmitExponent(e, rest);
      assert s2[1..] == e.value.sign + body;
      assert (e.value.sign + body)[|e.value.sign|..] == body;
      assert JsonSyntax.SkipSign(e.value.sign + body) == body;
      assert s2[1..|s2| - |body|] == e.value.sign;
      assert body[..|e.value.digits|] == e.value.digits;
    }
  }

  lemma FractionTaken(f: Option<string>, rest: string)
    requires (f.Some? ==> f.value != "" && AllDigits(f.value)) && (rest == "" || !(IsDigit(rest[0]) || rest[0] == '.'))
    ensures TakeFraction(EmitFraction(f, rest)) == Some((f, rest))
  {
    JsonSyntax.FractionEmitted(f, rest);
    if f.Some? {
      var s := EmitFraction(f, rest);
      assert s[1..|s| - |rest|] == f.value;
    }
  }

  lemma WholeTaken(whole: string, rest: string)
    requires whole != "" && AllDigits(whole) && (whole[0] == '0' ==> whole == "0") && (rest == "" || !IsDigit(rest[0]))
    ensures TakeWhole(whole + rest) == Some((whole, rest))
    ensures IsDigit(whole[0])
  {
    JsonSyntax.WholeEmitted(whole, rest);
    assert (whole + rest)[..|whole|] == whole;
  }

  lemma UnsignedTaken(n: Num, rest: string)
    requires NumOk(n) && !n.minus && JsonSyntax.Stops(rest)
    ensures TakeUnsigned(EmitNum(n, rest)) == Some((n, rest))
    ensures EmitNum(n, rest) != "" && IsDigit(EmitNum(n, rest)[0])
  {
    var s2 := EmitExponent(n.exponent, rest);
    var s1 := EmitFraction(n.fraction, s2);
    JsonSyntax.ExponentEmitted(n.exponent, rest);
    JsonSyntax.FractionEmitted(n.fraction, s2);
    hide TakeWhole, TakeFraction, TakeExponent, AllDigits, EmitFraction, EmitExponent, ExponentOk;
    ExponentTaken(n.exponent, rest);
    FractionTaken(n.fraction, s2);
    WholeTaken(n.whole, s1);
    assert EmitNum(n, rest) == n.whole + s1;
  }

  lemma NumTaken(n: Num, rest: string)
    requires NumOk(n) && JsonSyntax.Stops(rest)
    ensures TakeNum(EmitNum(n, rest)) == Some((n, rest))
  {
    hide TakeUnsigned, EmitFraction, EmitExponent, AllDigits, ExponentOk;
    var unsigned := n.(minus := false);
    UnsignedTaken(unsigned, rest);
    if n.minus {
      assert EmitNum(n, rest)[1..] == EmitNum(unsigned, rest);
    }
  }

  // ----- The typed readers -----

  function StringOf(json: string, key: string): Option<string> {
    var s :- FieldText(json, key);
    if s == "" || s[0] != '"' then None else Unescaped(s[1..])
  }

  function IntegerOf(json: string, key: string): (r: Option<nat>)
    ensures r.Some? ==> r.value <= MAXIMUM_UNSIGNED
  {
    var s :- FieldText(json, key);
    var digits := DigitRun(s);
    if digits == "" || !AtDelimiter(s[|digits|..]) || DigitsValue(digits) > MAXIMUM_UNSIGNED then None
    else Some(DigitsValue(digits))
  }

  function BoolOf(json: string, key: string): Option<bool> {
    var s :- FieldText(json, key);
    if "true" <= s && AtDelimiter(s[4..]) then Some(true)
    else if "false" <= s && AtDelimiter(s[5..]) then Some(false)
    else None
  }

  function DoubleOf(json: string, key: string): (r: Option<Num>)
    ensures r.Some? ==> NumOk(r.value)
  {
    var s :- FieldText(json, key);
    var (n, rest) :- TakeNum(s);
    if NumOk(n) && AtDelimiter(rest) then Some(n) else None
  }

  function ObjectOf(json: string, key: string): Option<string> { DelimitedText(json, key, '{', '}') }

  function ArrayBodyOf(json: string, key: string): Option<string> {
    var s :- DelimitedText(json, key, '[', ']');
    if |s| < 2 then None else Some(s[1..|s| - 1])
  }

  /** `json` is an object text whose field `i` is `key`, with value `value`. */
  ghost predicate HasField(json: string, v: Value, i: nat, key: string, value: Value) {
    && v.Obj? && ValueOk(v, 0) && i < |v.members| && v.members[i].key == key && v.members[i].value == value
    && exists before, rest :: AllWs(before) && json == before + Emit(v, rest)
  }

  lemma FieldPoints(json: string, v: Value, i: nat, key: string, value: Value) returns (after: string)
    requires HasField(json, v, i, key, value)
    ensures Ends(after) && FieldText(json, key) == Some(Emit(value, after))
  {
    hide AllWs, ValueOk;
    var before, rest :| AllWs(before) && json == before + Emit(v, rest);
    after := FieldFound(before, v, 0, i, rest);
  }

  lemma StringReads(json: string, v: Value, i: nat, key: string, x: string)
    requires HasField(json, v, i, key, Str(Escaped(x)))
    ensures StringOf(json, key) == Some(x)
  {
    hide HasField, FieldText, Unescaped;
    var after := FieldPoints(json, v, i, key, Str(Escaped(x)));
    UnescapeUndoesEscape(x, after);
  }

  lemma IntegerReads(json: string, v: Value, i: nat, key: string, n: nat)
    requires HasField(json, v, i, key, Whole(n)) && n <= MAXIMUM_UNSIGNED
    ensures IntegerOf(json, key) == Some(n)
  {
    hide HasField, FieldText, DigitsValue, DigitRun, Decimal;
    var after := FieldPoints(json, v, i, key, Whole(n));
    DecimalReads(n);
    DigitRunReads(Decimal(n), after);
    assert Emit(Whole(n), after) == Decimal(n) + after;
  }

  function Bool(b: bool): Value { Literal(if b then "true" else "false") }

  lemma BoolReads(json: string, v: Value, i: nat, key: string, b: bool)
    requires HasField(json, v, i, key, Bool(b))
    ensures BoolOf(json, key) == Some(b)
  {
    hide HasField, FieldText;
    var after := FieldPoints(json, v, i, key, Bool(b));
    var text := if b then "true" else "false";
    assert (text + after)[|text|..] == after;
    assert (text + after)[0] == text[0];
  }

  lemma DoubleReads(json: string, v: Value, i: nat, key: string, n: Num)
    requires HasField(json, v, i, key, Number(n)) && NumOk(n)
    ensures DoubleOf(json, key) == Some(n)
  {
    hide HasField, FieldText, TakeNum, EmitNum;
    var after := FieldPoints(json, v, i, key, Number(n));
    NumTaken(n, after);
  }

  // ----- Nested objects and arrays -----

  lemma {:induction false} CloserEndsText(v: Value, d: nat, rest: string)
    requires (v.Obj? || v.Arr?) && ValueOk(v, d)
    ensures var open, close := if v.Obj? then '{' else '[', if v.Obj? then '}' else ']';
            Emit(v, rest) != "" && Emit(v, rest)[0] == open && AfterClose(Emit(v, rest), open, close, 0) == Some(rest)
  {
    hide EmitItems, EmitMembers, ItemsOk, MembersOk, FreshKeys, AllWs;
    var close := if v.Obj? then '}' else ']';
    var tail := [close] + rest;
    var body := if v.Obj? then EmitMembers(v.members, tail) else EmitItems(v.items, tail);
    if v.Obj? { MembersSkip(v.members, d + 1, tail); } else { ItemsSkip(v.items, d + 1, tail); }
    WsSkips(v.pad, body, 2);
    SkipsOn(v.pad + body, body, tail, 2);
    assert Emit(v, rest)[1..] == v.pad + body;
  }

  lemma DelimitedReads(json: string, v: Value, i: nat, key: string, value: Value)
    requires HasField(json, v, i, key, value) && (value.Obj? || value.Arr?) && ValueOk(value, 1)
    ensures DelimitedText(json, key, if value.Obj? then '{' else '[', if value.Obj? then '}' else ']')
         == Some(Text(value))
  {
    hide HasField, FieldText, Emit, ValueOk, AfterClose;
    var after := FieldPoints(json, v, i, key, value);
    CloserEndsText(value, 1, after);
    TextThenRest(value, after);
    assert (Text(value) + after)[..|Text(value)|] == Text(value);
  }

  predicate AllObjects(items: seq<Item>) {
    forall k | 0 <= k < |items| :: items[k].value.Obj?
  }

  function Texts(items: seq<Item>): (r: seq<string>)
    ensures |r| == |items| && forall k | 0 <= k < |items| :: r[k] == Text(items[k].value)
  {
    if items == [] then [] else [Text(items[0].value)] + Texts(items[1..])
  }

  lemma ObjectOpens(s: string, start: string)
    requires s != "" && s[0] == '{' && |s| <= |start|
    ensures ObjectsFrom(s, 0, start) == ObjectsFrom(s[1..], 1, s)
  {
  }

  lemma ObjectCloses(s: string, start: string)
    requires s != "" && s[0] == '}' && |s| <= |start|
    ensures ObjectsFrom(s, 1, start) == [start[..|start| - |s| + 1]] + ObjectsFrom(s[1..], 0, start)
  {
  }

  lemma ObjectsInside(s: string, rest: string, start: string)
    requires Skips(s, rest, 2) && |s| <= |start|
    ensures |rest| <= |s| && ObjectsFrom(s, 1, start) == ObjectsFrom(rest, 1, start)
  {
  }

  lemma EnclosedObject(body: string, rest: string, start: string)
    requires Skips(body, ['}'] + rest, 2) && 1 + |body| <= |start|
    ensures |rest| <= |body| && ObjectsFrom(['{'] + body, 0, start)
         == [(['{'] + body)[..1 + |body| - |rest|]] + ObjectsFrom(rest, 0, ['{'] + body)
  {
    hide Skips, ObjectsFrom;
    var s, tail := ['{'] + body, ['}'] + rest;
    assert s[1..] == body && tail[1..] == rest;
    ObjectsInside(body, tail, s);
    ObjectOpens(s, start);
    ObjectCloses(tail, s);
  }

  lemma ObjectShape(v: Value, rest: string)
    requires v.Obj?
    ensures Emit(v, rest) == ['{'] + (v.pad + EmitMembers(v.members, ['}'] + rest))
  {
    hide EmitMembers;
  }

  /** What is between the braces of an object keeps them balanced. */
  lemma ObjectBodySkips(v: Value, d: nat, tail: string)
    requires v.Obj? && ValueOk(v, d)
    ensures Skips(v.pad + EmitMembers(v.members, tail), tail, 2)
  {
    hide EmitMembers, MembersOk, FreshKeys, AllWs, Skips;
    MembersSkip(v.members, d + 1, tail);
    WsSkips(v.pad, EmitMembers(v.members, tail), 2);
    SkipsOn(v.pad + EmitMembers(v.members, tail), EmitMembers(v.members, tail), tail, 2);
  }

  lemma Prefix<T>(whole: seq<T>, a: seq<T>, b: seq<T>)
    requires whole == a + b
    ensures |b| <= |whole| && whole[..|whole| - |b|] == a
  {
  }

  lemma EnclosedText(s: string, body: string, rest: string, start: string)
    requires s == ['{'] + body && Skips(body, ['}'] + rest, 2) && |s| <= |start|
    ensures |rest| <= |s| && ObjectsFrom(s, 0, start) == [s[..|s| - |rest|]] + ObjectsFrom(rest, 0, s)
  {
    hide Skips, ObjectsFrom;
    EnclosedObject(body, rest, start);
  }

  /** The objects of an array body, up to a first object. */
  lemma OneObject(v: Value, d: nat, rest: string, start: string)
    requires v.Obj? && ValueOk(v, d) && |Emit(v, rest)| <= |start|
    ensures |rest| <= |Emit(v, rest)|
    ensures ObjectsFrom(Emit(v, rest), 0, start) == [Text(v)] + ObjectsFrom(rest, 0, Emit(v, rest))
  {
    hide Emit, EmitMembers, ValueOk, Text, Skips, ObjectsFrom;
    ObjectShape(v, rest);
    ObjectBodySkips(v, d, ['}'] + rest);
    EnclosedText(Emit(v, rest), v.pad + EmitMembers(v.members, ['}'] + rest), rest, start);
    TextThenRest(v, rest);
    Prefix(Emit(v, rest), Text(v), rest);
  }

  lemma {:induction false} InertKeepsObjects(w: string, rest: string, start: string)
    requires AllInert(w) && |w + rest| <= |start|
    ensures ObjectsFrom(w + rest, 0, start) == ObjectsFrom(rest, 0, start)
  {
    if w == "" {
      assert w + rest == rest;
    } else {
      assert (w + rest)[1..] == w[1..] + rest;
      InertKeepsObjects(w[1..], rest, start);
    }
  }

  /** Objects splits a rendered array into exactly its elements. */
  lemma {:induction false} ObjectsOfItems(items: seq<Item>, d: nat, start: string)
    requires ItemsOk(items, d) && AllObjects(items) && |EmitItems(items, "")| <= |start|
    ensures ObjectsFrom(EmitItems(items, ""), 0, start) == Texts(items)
    decreases |items|
  {
    hide Emit, ValueOk, AllWs;
    if items != [] {
      var item, tail := items[0], items[1..];
      var more := MoreItems(tail, "");
      var value := Emit(item.value, item.after + more);
      WsIsInert(item.before);
      WsIsInert(item.after);
      InertKeepsObjects(item.before, value, start);
      OneObject(item.value, d, item.after + more, start);
      InertKeepsObjects(item.after, more, value);
      assert AllObjects(tail);
      if tail != [] {
        assert more[1..] == EmitItems(tail, "");
        ObjectsOfItems(tail, d, value);
      }
    }
  }

  lemma ArrayReads(json: string, v: Value, i: nat, key: string, value: Value)
    requires HasField(json, v, i, key, value) && value.Arr? && ValueOk(value, 1) && AllObjects(value.items)
    ensures ArrayBodyOf(json, key).Some? && ObjectTexts(ArrayBodyOf(json, key).value) == Texts(value.items)
  {
    hide HasField, DelimitedText, EmitItems, ItemsOk;
    DelimitedReads(json, v, i, key, value);
    var items := EmitItems(value.items, "");
    ItemsSplit(value.items, "", "]");
    assert "" + "]" == "]" && [']'] + "" == "]";
    assert Text(value) == ['['] + (value.pad + (items + "]"));
    var body := value.pad + items;
    assert Text(value)[1..|Text(value)| - 1] == body;
    WsIsInert(value.pad);
    InertKeepsObjects(value.pad, items, body);
    ObjectsOfItems(value.items, 2, body);
  }
}
