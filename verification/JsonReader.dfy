/** The scanner's loops, each proved to compute the function JsonScan or JsonFields gives for it. */
module JsonReader {
  import opened Types
  import opened JsonText
  import opened JsonScan
  import opened JsonFields

  method SkipSpaces(json: string, from: nat) returns (i: nat)
    requires from <= |json|
    ensures from <= i <= |json| && json[i..] == SkipSpace(json[from..])
  {
    i := from;
    while i < |json| && IsSpace(json[i])
      invariant from <= i <= |json| && SkipSpace(json[i..]) == SkipSpace(json[from..])
    {
      assert json[i..][1..] == json[i + 1..];
      i := i + 1;
    }
  }

  /** The inner loop over a string: the index of its closing quote, or the end of the text. */
  method ClosingQuote(json: string, begin: nat) returns (i: nat)
    requires begin <= |json|
    ensures begin <= i <= |json|
    ensures i < |json| <==> EndOfString(json[begin..]).Some?
    ensures i < |json| ==> json[i + 1..] == EndOfString(json[begin..]).value
  {
    i := begin;
    var escaped := false;
    while i < |json|
      invariant begin <= i <= |json|
      invariant escaped ==> begin < i
      invariant EndOfString(json[begin..]) == if escaped then EndOfString(json[i - 1..]) else EndOfString(json[i..])
      invariant escaped ==> json[i - 1] == '\\'
    {
      ghost var s := json[i..];
      assert s[1..] == json[i + 1..];
      if escaped {
        assert json[i - 1..][2..] == json[i + 1..];
        escaped := false;
      } else if json[i] == '\\' {
        escaped := true;
      } else if json[i] == '"' {
        return;
      }
      i := i + 1;
    }
  }

  lemma ScanBracket(s: string, key: string, depth: int)
    requires s != "" && s[0] != '"'
    ensures Scan(s, key, depth) == Scan(s[1..], key,
      if s[0] == '{' || s[0] == '[' then depth + 1 else if s[0] == '}' || s[0] == ']' then depth - 1 else depth)
  {
  }

  lemma ScanString(s: string, key: string, depth: int, close: nat)
    requires s != "" && s[0] == '"' && 1 <= close < |s| && EndOfString(s[1..]) == Some(s[close + 1..])
    ensures var colon := SkipSpace(s[close + 1..]);
            Scan(s, key, depth) ==
              if depth == 1 && s[1..close] == key && colon != "" && colon[0] == ':' then Some(SkipSpace(colon[1..]))
              else Scan(s[close + 1..], key, depth)
  {
    assert |s| - |s[close + 1..]| - 1 == close;
  }

  ghost predicate PointsAt(start: Option<nat>, json: string, found: Option<string>) {
    && (start.Some? <==> found.Some?)
    && (start.Some? ==> start.value <= |json| && json[start.value..] == found.value)
  }

  /** One string outside strings: the value it is the key of, the end of the scan, or the place to go on from. */
  method ScanStringAt(json: string, key: string, depth: int, i: nat) returns (stop: bool, start: Option<nat>, next: nat)
    requires i < |json| && json[i] == '"'
    ensures stop ==> PointsAt(start, json, Scan(json[i..], key, depth))
    ensures !stop ==> i < next <= |json| && Scan(json[i..], key, depth) == Scan(json[next..], key, depth)
  {
    hide SkipSpace, EndOfString, Scan;
    ghost var s := json[i..];
    assert s[1..] == json[i + 1..];
    var begin := i + 1;
    next := ClosingQuote(json, begin);
    if next >= |json| {
      UnterminatedString(s, key, depth);
      return true, None, next;
    }
    assert s[next - i + 1..] == json[next + 1..] && s[1..next - i] == json[begin..next];
    ScanString(s, key, depth, next - i);
    if depth != 1 || json[begin..next] != key { return false, None, next + 1; }
    start := ValueAfterKey(json, next + 1);
    return start.Some?, start, next + 1;
  }

  /** The index of the value of a top-level field. */
  method FieldValueStart(json: string, key: string) returns (start: Option<nat>)
    ensures PointsAt(start, json, FieldText(json, key))
  {
    var first := SkipSpaces(json, 0);
    assert json[0..] == json;
    if first >= |json| || json[first] != '{' { return None; }
    ghost var result := FieldText(json, key);
    var depth, i := 0, first;
    assert result == Scan(json[i..], key, depth);
    hide FieldText, SkipSpace, EndOfString, Scan;
    while i < |json|
      invariant first <= i <= |json| && result == Scan(json[i..], key, depth)
    {
      if json[i] == '"' {
        var stop, next;
        stop, start, next := ScanStringAt(json, key, depth, i);
        if stop { return; }
        i := next;
      } else {
        assert json[i..][1..] == json[i + 1..];
        ScanBracket(json[i..], key, depth);
        if json[i] == '{' || json[i] == '[' {
          depth := depth + 1;
        } else if json[i] == '}' || json[i] == ']' {
          depth := depth - 1;
        }
        i := i + 1;
      }
    }
    assert json[|json|..] == "";
    ScanNothing(key, depth);
    return None;
  }

  lemma UnterminatedString(s: string, key: string, depth: int)
    requires s != "" && s[0] == '"' && EndOfString(s[1..]).None?
    ensures Scan(s, key, depth).None?
  {
  }

  lemma ScanNothing(key: string, depth: int)
    ensures Scan("", key, depth).None?
  {
  }

  /** The value after a key that ends at `from`, unless no colon follows. */
  method ValueAfterKey(json: string, from: nat) returns (value: Option<nat>)
    requires from <= |json|
    ensures var colon := SkipSpace(json[from..]);
            && (value.Some? <==> colon != "" && colon[0] == ':')
            && (value.Some? ==> value.value <= |json| && json[value.value..] == SkipSpace(colon[1..]))
  {
    var i := SkipSpaces(json, from);
    if i >= |json| || json[i] != ':' { return None; }
    assert json[i..][1..] == json[i + 1..];
    i := SkipSpaces(json, i + 1);
    return Some(i);
  }

  method DelimitedField(json: string, key: string, open: char, close: char) returns (r: Option<string>)
    ensures r == DelimitedText(json, key, open, close)
  {
    var start := FieldValueStart(json, key);
    hide FieldText;
    if start.None? || start.value >= |json| || json[start.value] != open { return None; }
    var depth, i := 0, start.value;
    var inString, escaped := false, false;
    ghost var s := json[start.value..];
    while i < |json|
      invariant start.value <= i <= |json|
      invariant escaped ==> inString && start.value < i
      invariant !inString ==> AfterClose(s, open, close, 0) == AfterClose(json[i..], open, close, depth)
      invariant inString && !escaped ==> AfterClose(s, open, close, 0) == AfterString(json[i..], open, close, depth)
      invariant inString && escaped ==>
        json[i - 1] == '\\' && AfterClose(s, open, close, 0) == AfterString(json[i - 1..], open, close, depth)
    {
      var character := json[i];
      assert json[i..][1..] == json[i + 1..];
      if inString {
        if escaped {
          assert json[i - 1..][2..] == json[i + 1..];
          escaped := false;
        } else if character == '\\' {
          escaped := true;
        } else if character == '"' {
          inString := false;
        }
      } else if character == '"' {
        inString := true;
      } else if character == open {
        depth := depth + 1;
      } else if character == close {
        depth := depth - 1;
        if depth == 0 {
          assert json[start.value..i + 1] == s[..|s| - |json[i + 1..]|];
          return Some(json[start.value..i + 1]);
        }
      }
      i := i + 1;
    }
    return None;
  }

  /** What AfterClose goes on with from inside a string. */
  ghost function AfterString(s: string, open: char, close: char, depth: int): Option<string> {
    var rest :- EndOfString(s);
    AfterClose(rest, open, close, depth)
  }

  ghost function ObjectsAfterString(s: string, depth: int, start: string): seq<string>
    requires |s| <= |start|
  {
    var rest := EndOfString(s);
    if rest.None? then [] else ObjectsFrom(rest.value, depth, start)
  }

  lemma ObjectsOutsideString(body: string, i: nat, depth: int, start: nat)
    requires start <= i < |body| && body[i] != '"'
    ensures ObjectsFrom(body[i..], depth, body[start..])
            == (if body[i] == '{' then
                  ObjectsFrom(body[i + 1..], depth + 1, body[(if depth == 0 then i else start)..])
                else if body[i] == '}' then
                  (if depth == 1 then [body[start..i + 1]] else [])
                  + ObjectsFrom(body[i + 1..], depth - 1, body[start..])
                else ObjectsFrom(body[i + 1..], depth, body[start..]))
  {
    assert body[i..][1..] == body[i + 1..];
    assert body[start..][..i - start + 1] == body[start..i + 1];
  }

  lemma ObjectsAtString(body: string, i: nat, depth: int, start: nat)
    requires start <= i < |body|
    ensures body[i] == '"' ==>
              ObjectsFrom(body[i..], depth, body[start..]) == ObjectsAfterString(body[i + 1..], depth, body[start..])
    ensures body[i] == '"' ==>
              ObjectsAfterString(body[i..], depth, body[start..]) == ObjectsFrom(body[i + 1..], depth, body[start..])
    ensures body[i] == '\\' ==>
              ObjectsAfterString(body[i..], depth, body[start..])
              == if i + 1 < |body| then ObjectsAfterString(body[i + 2..], depth, body[start..]) else []
    ensures body[i] != '"' && body[i] != '\\' ==>
              ObjectsAfterString(body[i..], depth, body[start..])
              == ObjectsAfterString(body[i + 1..], depth, body[start..])
  {
    hide ObjectsFrom;
    assert body[i..][1..] == body[i + 1..];
    if i + 1 < |body| { assert body[i..][2..] == body[i + 2..]; }
    if body[i] == '"' { ObjectsQuote(body[i..], depth, body[start..]); }
  }

  lemma ObjectsQuote(s: string, depth: int, start: string)
    requires s != "" && s[0] == '"' && |s| <= |start|
    ensures ObjectsFrom(s, depth, start) == ObjectsAfterString(s[1..], depth, start)
  {
  }

  lemma ObjectsEnd(body: string)
    ensures ObjectTexts(body) == ObjectsFrom(body, 0, body)
    ensures forall depth, start :: ObjectsFrom("", depth, start) == []
    ensures forall depth, start :: ObjectsAfterString("", depth, start) == []
  {
  }

  method Objects(body: string) returns (result: seq<string>)
    ensures result == ObjectTexts(body)
  {
    hide ObjectsFrom, ObjectsAfterString, ObjectTexts;
    result := [];
    var depth, start, i := 0, 0, 0;
    var inString, escaped := false, false;
    assert body[0..] == body;
    ObjectsEnd(body);
    while i < |body|
      invariant 0 <= start <= i <= |body|
      invariant !inString ==> ObjectTexts(body) == result + ObjectsFrom(body[i..], depth, body[start..])
      invariant inString && !escaped ==>
        ObjectTexts(body) == result + ObjectsAfterString(body[i..], depth, body[start..])
      invariant inString && escaped ==>
        && start < i && body[i - 1] == '\\'
        && ObjectTexts(body) == result + ObjectsAfterString(body[i - 1..], depth, body[start..])
      invariant escaped ==> inString
    {
      var ch := body[i];
      ObjectsAtString(body, i, depth, start);
      if ch != '"' { ObjectsOutsideString(body, i, depth, start); }
      if inString {
        if escaped {
          ObjectsAtString(body, i - 1, depth, start);
          escaped := false;
        } else if ch == '\\' {
          escaped := true;
        } else if ch == '"' {
          inString := false;
        }
      } else if ch == '"' {
        inString := true;
      } else if ch == '{' {
        if depth == 0 { start := i; }
        depth := depth + 1;
      } else if ch == '}' {
        depth := depth - 1;
        if depth == 0 {
          result := result + [body[start..i + 1]];
        }
      }
      i := i + 1;
    }
    assert body[|body|..] == "";
    if escaped { ObjectsAtString(body, |body| - 1, depth, start); }
  }

  method StringField(json: string, key: string) returns (r: Option<string>)
    ensures r == StringOf(json, key)
  {
    var start := FieldValueStart(json, key);
    hide FieldText;
    if start.None? || start.value >= |json| || json[start.value] != '"' { return None; }
    assert json[start.value..][1..] == json[start.value + 1..];
    r := UnescapeLoop(json, start.value + 1);
  }

  method UnescapeLoop(json: string, begin: nat) returns (r: Option<string>)
    requires begin <= |json|
    ensures r == Unescaped(json[begin..])
  {
    var result, i := "", begin;
    PrependNothing(Unescaped(json[begin..]));
    while i < |json|
      invariant begin <= i <= |json|
      invariant Unescaped(json[begin..]) == Prepend(result, Unescaped(json[i..]))
    {
      ghost var s := json[i..];
      var value := json[i];
      if value == '"' {
        assert result + "" == result;
        return Some(result);
      }
      if value != '\\' {
        if value < ' ' { return None; }
        assert s[1..] == json[i + 1..];
        PrependTwice(result, [value], Unescaped(json[i + 1..]));
        result := result + [value];
        i := i + 1;
        continue;
      }
      var text, next := ReadEscape(json, i);
      if text.None? { return None; }
      PrependTwice(result, text.value, Unescaped(json[next..]));
      result, i := result + text.value, next;
    }
    return None;
  }

  lemma PrependNothing(r: Option<string>)
    ensures Prepend("", r) == r
  {
    if r.Some? { assert "" + r.value == r.value; }
  }

  lemma PrependTwice(a: string, b: string, r: Option<string>)
    ensures Prepend(a, Prepend(b, r)) == Prepend(a + b, r)
  {
    if r.Some? { assert a + (b + r.value) == a + b + r.value; }
  }

  /** What a backslash and the characters after it stand for. */
  method ReadEscape(json: string, from: nat) returns (text: Option<string>, next: nat)
    requires from < |json| && json[from] == '\\'
    ensures text.None? ==> Unescaped(json[from..]).None?
    ensures text.Some? ==>
              from < next <= |json| && Unescaped(json[from..]) == Prepend(text.value, Unescaped(json[next..]))
  {
    ghost var s := json[from..];
    var i := from + 1;
    if i >= |json| { return None, from; }
    if json[i] == 'u' {
      if i + 4 >= |json| { return None, from; }
      assert s[2..] == json[i + 1..] && s[6..] == json[i + 5..];
      var codeUnit := ReadCodeUnit(json, i + 1);
      hide CodeUnit, CodeUnitText, SimpleEscape;
      if codeUnit.None? { return None, from; }
      text := CodeUnitText(codeUnit.value);
      next := i + 5;
    } else {
      hide CodeUnit, CodeUnitText, SimpleEscape;
      assert s[2..] == json[i + 1..];
      var c := SimpleEscape(json[i]);
      text := if c.None? then None else Some([c.value]);
      next := i + 1;
    }
  }

  method ReadCodeUnit(json: string, from: nat) returns (r: Option<int>)
    requires from + 4 <= |json|
    ensures r == CodeUnit(json[from..])
    ensures r.Some? ==> 0 <= r.value < 0x10000
  {
    var codeUnit, digit := 0, 0;
    ghost var s := json[from..];
    assert s[0] == json[from] && s[1] == json[from + 1] && s[2] == json[from + 2] && s[3] == json[from + 3];
    while digit < 4
      invariant 0 <= digit <= 4
      invariant forall k | 0 <= k < digit :: 0 <= HexValue(s[k]) < 16
      invariant digit == 0 ==> codeUnit == 0
      invariant digit == 1 ==> codeUnit == HexValue(s[0])
      invariant digit == 2 ==> codeUnit == HexValue(s[0]) * 16 + HexValue(s[1])
      invariant digit == 3 ==> codeUnit == (HexValue(s[0]) * 16 + HexValue(s[1])) * 16 + HexValue(s[2])
      invariant digit == 4 ==> Some(codeUnit) == CodeUnit(s)
    {
      var hex := HexValue(json[from + digit]);
      if hex < 0 { return None; }
      codeUnit := codeUnit * 16 + hex;
      digit := digit + 1;
    }
    return Some(codeUnit);
  }

  method IntegerField(json: string, key: string) returns (r: Option<nat>)
    ensures r == IntegerOf(json, key)
  {
    var start := FieldValueStart(json, key);
    hide FieldText;
    if start.None? || start.value >= |json| || !IsDigit(json[start.value]) { return None; }
    var end := EndOfDigits(json, start.value);
    if end < |json| && !IsDelimiter(json[end]) { return None; }
    assert json[start.value..][end - start.value..] == json[end..];
    var value := DigitsValue(json[start.value..end]);
    return if value <= MAXIMUM_UNSIGNED then Some(value) else None;
  }

  method EndOfDigits(json: string, start: nat) returns (end: nat)
    requires start < |json| && IsDigit(json[start])
    ensures start < end <= |json| && json[start..end] == DigitRun(json[start..])
  {
    end := start;
    ghost var s := json[start..];
    while end < |json| && IsDigit(json[end])
      invariant start <= end <= |json|
      invariant forall k | 0 <= k < end - start :: IsDigit(s[k])
    {
      assert s[end - start] == json[end];
      end := end + 1;
    }
    DigitRunStops(s, end - start);
    assert s[..end - start] == json[start..end];
  }

  lemma {:induction false} DigitRunStops(s: string, n: nat)
    requires n <= |s| && (forall k | 0 <= k < n :: IsDigit(s[k])) && (n < |s| ==> !IsDigit(s[n]))
    ensures DigitRun(s) == s[..n]
  {
    if n > 0 {
      DigitRunStops(s[1..], n - 1);
      assert s[..n] == [s[0]] + s[1..][..n - 1];
    }
  }

  method BoolField(json: string, key: string) returns (r: Option<bool>)
    ensures r == BoolOf(json, key)
  {
    var start := FieldValueStart(json, key);
    hide FieldText;
    if start.None? { return None; }
    var s := json[start.value..];
    if "true" <= s && (|s| == 4 || IsDelimiter(s[4])) { return Some(true); }
    if "false" <= s && (|s| == 5 || IsDelimiter(s[5])) { return Some(false); }
    return None;
  }

  method JsonEscape(value: string) returns (output: string)
    ensures output == Escaped(value)
  {
    hide Escaped, EscapeChar;
    EscapedNothing();
    output := "";
    var i := 0;
    assert value[0..] == value;
    while i < |value|
      invariant 0 <= i <= |value| && Escaped(value) == output + Escaped(value[i..])
    {
      EscapedNext(value, i);
      AppendOnce(output, EscapeChar(value[i]), Escaped(value[i + 1..]));
      output := output + EscapeChar(value[i]);
      i := i + 1;
    }
    assert value[|value|..] == "";
  }

  lemma EscapedNothing()
    ensures Escaped("") == ""
  {
  }

  lemma EscapedNext(value: string, i: nat)
    requires i < |value|
    ensures Escaped(value[i..]) == EscapeChar(value[i]) + Escaped(value[i + 1..])
  {
    hide EscapeChar;
    assert value[i..][1..] == value[i + 1..];
  }

  lemma AppendOnce(a: string, b: string, c: string)
    ensures a + (b + c) == a + b + c
  {
  }
}
