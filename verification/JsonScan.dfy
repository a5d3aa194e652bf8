/**
 * The field scanner that reads session files back: it never parses a value, it only tracks brackets and strings. The
 * functions say what a scan from a given point returns; the lemmas say what that is on a well-formed text.
 */
module JsonScan {
  import opened Types
  import opened JsonText

  predicate IsSpace(c: char) { c == ' ' || 9 as char <= c <= 13 as char }

  function SkipSpace(s: string): (r: string)
    ensures |r| <= |s|
  {
    if s != "" && IsSpace(s[0]) then SkipSpace(s[1..]) else s
  }

  /** What follows the closing quote of a string whose contents start at `s`; None when it never closes. */
  function EndOfString(s: string): (r: Option<string>)
    ensures r.Some? ==> |r.value| < |s|
  {
    if s == "" then None
    else if s[0] == '"' then Some(s[1..])
    else if s[0] == '\\' then (if |s| < 2 then None else EndOfString(s[2..]))
    else EndOfString(s[1..])
  }

  /** The main loop of FieldValueStart, from a point outside strings. */
  function Scan(s: string, key: string, depth: int): (r: Option<string>)
    ensures r.Some? ==> |r.value| <= |s|
    decreases |s|
  {
    if s == "" then None
    else if s[0] == '{' || s[0] == '[' then Scan(s[1..], key, depth + 1)
    else if s[0] == '}' || s[0] == ']' then Scan(s[1..], key, depth - 1)
    else if s[0] != '"' then Scan(s[1..], key, depth)
    else
      var rest :- EndOfString(s[1..]);
      var body := s[1..|s| - |rest| - 1];
      var colon := SkipSpace(rest);
      if depth == 1 && body == key && colon != "" && colon[0] == ':' then Some(SkipSpace(colon[1..]))
      else Scan(rest, key, depth)
  }

  /** What FieldValueStart points at: the text from the first character of the field's value on. */
  function FieldText(json: string, key: string): (r: Option<string>)
    ensures r.Some? ==> |r.value| <= |json|
  {
    var s := SkipSpace(json);
    if s == "" || s[0] != '{' then None else Scan(s, key, 0)
  }

  /** What follows the bracket that closes `depth` open ones; only `open` and `close` count. */
  function AfterClose(s: string, open: char, close: char, depth: int): (r: Option<string>)
    ensures r.Some? ==> |r.value| < |s|
    decreases |s|
  {
    if s == "" then None
    else if s[0] == '"' then
      var rest :- EndOfString(s[1..]);
      AfterClose(rest, open, close, depth)
    else if s[0] == open then AfterClose(s[1..], open, close, depth + 1)
    else if s[0] == close then (if depth == 1 then Some(s[1..]) else AfterClose(s[1..], open, close, depth - 1))
    else AfterClose(s[1..], open, close, depth)
  }

  function DelimitedText(json: string, key: string, open: char, close: char): Option<string> {
    var s :- FieldText(json, key);
    if s == "" || s[0] != open then None
    else
      var rest :- AfterClose(s, open, close, 0);
      Some(s[..|s| - |rest|])
  }

  /** The objects of an array body: `start` is the text from the brace that opened the current one. */
  function ObjectsFrom(s: string, depth: int, start: string): seq<string>
    requires |s| <= |start|
    decreases |s|
  {
    if s == "" then []
    else if s[0] == '"' then
      var rest := EndOfString(s[1..]);
      if rest.None? then [] else ObjectsFrom(rest.value, depth, start)
    else if s[0] == '{' then ObjectsFrom(s[1..], depth + 1, if depth == 0 then s else start)
    else if s[0] == '}' then
      (if depth == 1 then [start[..|start| - |s| + 1]] else []) + ObjectsFrom(s[1..], depth - 1, start)
    else ObjectsFrom(s[1..], depth, start)
  }

  function ObjectTexts(body: string): seq<string> { ObjectsFrom(body, 0, body) }

  // ----- Skipping over pieces of a well-formed text -----

  /** Characters the scanners pass over one by one. */
  predicate Inert(c: char) { c != '"' && c != '{' && c != '}' && c != '[' && c != ']' }

  predicate AllInert(s: string) {
    s == "" || (Inert(s[0]) && AllInert(s[1..]))
  }

  predicate IsPair(open: char, close: char) { (open == '{' && close == '}') || (open == '[' && close == ']') }

  /**
   * Each of the three scanners goes from `s` to `rest` and nothing comes of it: the field scan from nesting depth
   * `floor` on, the two bracket counters while at least one bracket is open.
   */
  ghost predicate Skips(s: string, rest: string, floor: nat) {
    && |rest| <= |s|
    && (forall key: string, depth: int | depth >= floor :: Scan(s, key, depth) == Scan(rest, key, depth))
    && (forall open: char, close: char, depth: int | IsPair(open, close) && depth >= 1 ::
          AfterClose(s, open, close, depth) == AfterClose(rest, open, close, depth))
    && (forall depth: int, start: string | depth >= 1 && |s| <= |start| ::
          ObjectsFrom(s, depth, start) == ObjectsFrom(rest, depth, start))
  }

  lemma SkipsOn(s: string, t: string, rest: string, floor: nat)
    requires Skips(s, t, floor) && Skips(t, rest, floor)
    ensures Skips(s, rest, floor)
  {
  }

  lemma InertCharSkips(c: char, rest: string, floor: nat)
    requires Inert(c)
    ensures Skips([c] + rest, rest, floor)
  {
    assert ([c] + rest)[1..] == rest;
  }

  lemma {:induction false} InertSkips(w: string, rest: string, floor: nat)
    requires AllInert(w)
    ensures Skips(w + rest, rest, floor)
  {
    hide Skips;
    if w == "" {
      assert w + rest == rest;
      SkipsSelf(rest, floor);
    } else {
      assert w + rest == [w[0]] + (w[1..] + rest);
      InertCharSkips(w[0], w[1..] + rest, floor);
      InertSkips(w[1..], rest, floor);
      SkipsOn(w + rest, w[1..] + rest, rest, floor);
    }
  }

  lemma SkipsSelf(s: string, floor: nat)
    ensures Skips(s, s, floor)
  {
  }

  lemma {:induction false} WsIsInert(w: string)
    requires AllWs(w)
    ensures AllInert(w)
  {
    if w != "" { WsIsInert(w[1..]); }
  }

  lemma {:induction false} DigitsAreInert(w: string)
    requires AllDigits(w)
    ensures AllInert(w)
  {
    if w != "" { DigitsAreInert(w[1..]); }
  }

  lemma WsSkips(w: string, rest: string, floor: nat)
    requires AllWs(w)
    ensures Skips(w + rest, rest, floor)
  {
    WsIsInert(w);
    InertSkips(w, rest, floor);
  }

  lemma DigitsSkip(w: string, rest: string, floor: nat)
    requires AllDigits(w)
    ensures Skips(w + rest, rest, floor)
  {
    DigitsAreInert(w);
    InertSkips(w, rest, floor);
  }

  lemma ExponentSkips(e: Option<Exponent>, rest: string, floor: nat)
    requires e.Some? ==> ExponentOk(e.value)
    ensures Skips(EmitExponent(e, rest), rest, floor)
  {
    hide Skips;
    SkipsSelf(rest, floor);
    if e.Some? {
      var s1 := e.value.digits + rest;
      var s2 := e.value.sign + s1;
      InertCharSkips(e.value.mark, s2, floor);
      InertSkips(e.value.sign, s1, floor);
      DigitsSkip(e.value.digits, rest, floor);
      SkipsOn(s2, s1, rest, floor);
      SkipsOn(EmitExponent(e, rest), s2, rest, floor);
    }
  }

  lemma NumberSkips(n: Num, rest: string, floor: nat)
    requires NumOk(n)
    ensures Skips(EmitNum(n, rest), rest, floor)
  {
    hide Skips;
    var s1 := EmitExponent(n.exponent, rest);
    var s2 := EmitFraction(n.fraction, s1);
    var s3 := n.whole + s2;
    ExponentSkips(n.exponent, rest, floor);
    SkipsSelf(s1, floor);
    if n.fraction.Some? {
      InertCharSkips('.', n.fraction.value + s1, floor);
      DigitsSkip(n.fraction.value, s1, floor);
      SkipsOn(s2, n.fraction.value + s1, s1, floor);
    }
    SkipsOn(s2, s1, rest, floor);
    DigitsSkip(n.whole, s2, floor);
    SkipsOn(s3, s2, rest, floor);
    var sign := if n.minus then "-" else "";
    InertSkips(sign, s3, floor);
    SkipsOn(EmitNum(n, rest), s3, rest, floor);
  }

  lemma LiteralSkips(text: string, rest: string, floor: nat)
    requires IsLiteral(text)
    ensures Skips(text + rest, rest, floor)
  {
    hide Skips;
    assert AllInert("true") && AllInert("false") && AllInert("null");
    InertSkips(text, rest, floor);
  }

  // ----- Strings -----

  lemma {:induction false} EndOfRaw(raw: string, rest: string)
    requires RawOk(raw)
    ensures EndOfString(raw + (['"'] + rest)) == Some(rest)
    decreases |raw|
  {
    var s := raw + (['"'] + rest);
    if raw == "" {
      assert s == ['"'] + rest;
    } else {
      var skip := if raw[0] != '\\' then 1 else if IsSimpleEscape(raw[1]) then 2 else 6;
      assert s[skip..] == raw[skip..] + (['"'] + rest);
      EndOfRaw(raw[skip..], rest);
      if skip == 6 { EndOfUnicodeEscape(s); }
    }
  }

  lemma EndOfUnicodeEscape(s: string)
    requires |s| >= 6 && s[0] == '\\' && StartsWithFourHex(s[2..])
    ensures EndOfString(s) == EndOfString(s[6..])
  {
    assert s[2..][1..] == s[3..] && s[3..][1..] == s[4..] && s[4..][1..] == s[5..] && s[5..][1..] == s[6..];
    assert EndOfString(s[4..]) == EndOfString(s[6..]);
    assert EndOfString(s[2..]) == EndOfString(s[4..]);
  }

  /** Not a colon: what follows a string value, as opposed to a key. */
  predicate NotColon(rest: string) {
    var t := SkipSpace(rest);
    t == "" || t[0] != ':'
  }

  lemma StringSkips(raw: string, rest: string, floor: nat)
    requires RawOk(raw)
    requires floor >= 2 || NotColon(rest)
    ensures Skips(EmitStr(raw, rest), rest, floor)
  {
    EndOfRaw(raw, rest);
    var s := EmitStr(raw, rest);
    assert s[1..] == raw + (['"'] + rest);
  }

  // ----- Containers -----

  lemma EnclosedSkips(open: char, body: string, close: char, rest: string, floor: nat)
    requires IsPair(open, close) && floor >= 1
    requires Skips(body, [close] + rest, 2)
    ensures Skips([open] + body, rest, floor)
  {
    var s, t := [open] + body, [close] + rest;
    assert s[1..] == body && t[1..] == rest;
    forall key: string, depth: int | depth >= floor ensures Scan(s, key, depth) == Scan(rest, key, depth) {
      assert Scan(body, key, depth + 1) == Scan(t, key, depth + 1);
    }
    forall o: char, c: char, depth: int | IsPair(o, c) && depth >= 1
      ensures AfterClose(s, o, c, depth) == AfterClose(rest, o, c, depth)
    {
      assert AfterClose(body, o, c, depth + 1) == AfterClose(t, o, c, depth + 1);
      assert AfterClose(body, o, c, depth) == AfterClose(t, o, c, depth);
    }
    forall depth: int, start: string | depth >= 1 && |s| <= |start|
      ensures ObjectsFrom(s, depth, start) == ObjectsFrom(rest, depth, start)
    {
      assert ObjectsFrom(body, depth + 1, start) == ObjectsFrom(t, depth + 1, start);
      assert ObjectsFrom(body, depth, start) == ObjectsFrom(t, depth, start);
      assert [] + ObjectsFrom(rest, depth, start) == ObjectsFrom(rest, depth, start);
    }
  }

  lemma {:induction false} ValueSkips(v: Value, d: nat, rest: string, floor: nat)
    requires ValueOk(v, d) && floor >= 1
    requires floor >= 2 || NotColon(rest)
    ensures Skips(Emit(v, rest), rest, floor)
    decreases v, 2
  {
    hide Skips, EmitNum, EmitStr, EmitItems, EmitMembers, ItemsOk, MembersOk, NumOk, RawOk, FreshKeys, IsLiteral;
    match v
    case Literal(text) => LiteralSkips(text, rest, floor);
    case Number(n) => NumberSkips(n, rest, floor);
    case Str(raw) => StringSkips(raw, rest, floor);
    case Arr(pad, items) =>
      var body := EmitItems(items, [']'] + rest);
      ItemsSkip(items, d + 1, [']'] + rest);
      WsSkips(pad, body, 2);
      SkipsOn(pad + body, body, [']'] + rest, 2);
      EnclosedSkips('[', pad + body, ']', rest, floor);
    case Obj(pad, members) =>
      var body := EmitMembers(members, ['}'] + rest);
      MembersSkip(members, d + 1, ['}'] + rest);
      WsSkips(pad, body, 2);
      SkipsOn(pad + body, body, ['}'] + rest, 2);
      EnclosedSkips('{', pad + body, '}', rest, floor);
  }

  lemma {:induction false} ItemsSkip(items: seq<Item>, d: nat, rest: string)
    requires ItemsOk(items, d)
    ensures Skips(EmitItems(items, rest), rest, 2)
    decreases items, 1
  {
    hide Skips, Emit, ValueOk, AllWs;
    SkipsSelf(rest, 2);
    if items != [] {
      var item, tail := items[0], items[1..];
      var more := MoreItems(tail, rest);
      var value := Emit(item.value, item.after + more);
      if tail != [] {
        ItemsSkip(tail, d, rest);
        InertCharSkips(',', EmitItems(tail, rest), 2);
        SkipsOn(more, EmitItems(tail, rest), rest, 2);
      }
      ValueSkips(item.value, d, item.after + more, 2);
      WsSkips(item.after, more, 2);
      WsSkips(item.before, value, 2);
      SkipsOn(item.after + more, more, rest, 2);
      SkipsOn(value, item.after + more, rest, 2);
      SkipsOn(item.before + value, value, rest, 2);
    }
  }

  /** From a colon to the end of the member. */
  lemma {:induction false} FieldSkips(m: Member, d: nat, more: string, floor: nat)
    requires MemberSpacing(m) && ValueOk(m.value, d) && floor >= 1
    requires floor >= 2 || NotColon(m.after + more)
    ensures Skips([':'] + (m.gap + Emit(m.value, m.after + more)), more, floor)
    decreases m.value, 3
  {
    hide Skips, Emit, ValueOk, AllWs, NotColon;
    var value := Emit(m.value, m.after + more);
    ValueSkips(m.value, d, m.after + more, floor);
    WsSkips(m.after, more, floor);
    WsSkips(m.gap, value, floor);
    InertCharSkips(':', m.gap + value, floor);
    SkipsOn(value, m.after + more, more, floor);
    SkipsOn(m.gap + value, value, more, floor);
    SkipsOn([':'] + (m.gap + value), m.gap + value, more, floor);
  }

  lemma {:induction false} MembersSkip(members: seq<Member>, d: nat, rest: string)
    requires MembersOk(members, d)
    ensures Skips(EmitMembers(members, rest), rest, 2)
    decreases members, 1
  {
    hide Skips, Emit, ValueOk, AllWs, EmitStr, RawOk;
    SkipsSelf(rest, 2);
    if members != [] {
      var m, tail := members[0], members[1..];
      var more := MoreMembers(tail, rest);
      var colon := [':'] + (m.gap + Emit(m.value, m.after + more));
      var key := EmitStr(m.key, m.mid + colon);
      if tail != [] {
        MembersSkip(tail, d, rest);
        InertCharSkips(',', EmitMembers(tail, rest), 2);
        SkipsOn(more, EmitMembers(tail, rest), rest, 2);
      }
      FieldSkips(m, d, more, 2);
      SkipsOn(colon, more, rest, 2);
      WsSkips(m.mid, colon, 2);
      SkipsOn(m.mid + colon, colon, rest, 2);
      StringSkips(m.key, m.mid + colon, 2);
      SkipsOn(key, m.mid + colon, rest, 2);
      WsSkips(m.before, key, 2);
      SkipsOn(m.before + key, key, rest, 2);
    }
  }

  // ----- Finding a field -----

  /** Where a value of a well-formed text ends: whitespace, a separator or a closing bracket. */
  predicate Ends(rest: string) {
    rest != "" && (IsSpace(rest[0]) || rest[0] == ',' || rest[0] == '}' || rest[0] == ']')
  }

  lemma {:induction false} SpaceOverWs(w: string, rest: string)
    requires AllWs(w)
    ensures SkipSpace(w + rest) == SkipSpace(rest)
  {
    if w == "" {
      assert w + rest == rest;
    } else {
      assert (w + rest)[1..] == w[1..] + rest;
      SpaceOverWs(w[1..], rest);
    }
  }

  lemma AfterFieldEnds(after: string, more: string)
    requires AllWs(after) && more != "" && (more[0] == ',' || more[0] == '}' || more[0] == ']')
    ensures Ends(after + more) && NotColon(after + more)
  {
    SpaceOverWs(after, more);
  }

  lemma ValueDoesNotStartWithSpace(v: Value, d: nat, rest: string)
    requires ValueOk(v, d)
    ensures Emit(v, rest) != "" && !IsSpace(Emit(v, rest)[0])
  {
  }

  /** A key at the top level is skipped unless it is the one looked for. */
  lemma OtherKeySkips(m: Member, key: string, colon: string)
    requires AllWs(m.mid) && RawOk(m.key) && m.key != key && AllWs(m.before)
    ensures Scan(m.before + EmitStr(m.key, m.mid + colon), key, 1) == Scan(colon, key, 1)
  {
    hide AllWs;
    var s := EmitStr(m.key, m.mid + colon);
    WsSkips(m.before, s, 1);
    EndOfRaw(m.key, m.mid + colon);
    assert s[1..] == m.key + (['"'] + (m.mid + colon));
    assert s[1..|s| - |m.mid + colon| - 1] == m.key;
    WsSkips(m.mid, colon, 1);
  }

  lemma ThisKeyFound(m: Member, value: string)
    requires MemberSpacing(m) && RawOk(m.key) && value != "" && !IsSpace(value[0])
    ensures Scan(m.before + EmitStr(m.key, m.mid + ([':'] + (m.gap + value))), m.key, 1) == Some(value)
  {
    hide AllWs;
    var colon := [':'] + (m.gap + value);
    var s := EmitStr(m.key, m.mid + colon);
    WsSkips(m.before, s, 1);
    EndOfRaw(m.key, m.mid + colon);
    assert s[1..] == m.key + (['"'] + (m.mid + colon));
    assert s[1..|s| - |m.mid + colon| - 1] == m.key;
    SpaceOverWs(m.mid, colon);
    SpaceOverWs(m.gap, value);
    assert colon[1..] == m.gap + value;
  }

  /** The scan of an object's members reaches member `i` when no earlier one has its key. */
  lemma {:induction false} ScanFindsMember(members: seq<Member>, d: nat, i: nat, rest: string) returns (after: string)
    requires MembersOk(members, d) && i < |members|
    requires forall j | 0 <= j < i :: members[j].key != members[i].key
    ensures Ends(after)
    ensures Scan(EmitMembers(members, ['}'] + rest), members[i].key, 1) == Some(Emit(members[i].value, after))
    decreases members
  {
    hide Emit, ValueOk, AllWs, EmitStr, RawOk;
    var m, tail := members[0], members[1..];
    var more := MoreMembers(tail, ['}'] + rest);
    assert AllWs(m.after);
    AfterFieldEnds(m.after, more);
    if i == 0 {
      after := m.after + more;
      ValueDoesNotStartWithSpace(m.value, d, after);
      ThisKeyFound(m, Emit(m.value, after));
    } else {
      assert members[i] == tail[i - 1];
      assert forall j | 0 <= j < i - 1 :: tail[j] == members[j + 1];
      after := ScanFindsMember(tail, d, i - 1, rest);
      var colon := [':'] + (m.gap + Emit(m.value, m.after + more));
      OtherKeySkips(m, members[i].key, colon);
      FieldSkips(m, d, more, 1);
      InertCharSkips(',', EmitMembers(tail, ['}'] + rest), 1);
    }
  }

  lemma {:induction false} ScanMissesMember(members: seq<Member>, d: nat, key: string, rest: string)
    requires MembersOk(members, d)
    requires forall j | 0 <= j < |members| :: members[j].key != key
    ensures Scan(EmitMembers(members, ['}'] + rest), key, 1) == Scan(['}'] + rest, key, 1)
    decreases members
  {
    hide Emit, ValueOk, AllWs, EmitStr, RawOk;
    if members != [] {
      var m, tail := members[0], members[1..];
      var more := MoreMembers(tail, ['}'] + rest);
      assert AllWs(m.after);
      AfterFieldEnds(m.after, more);
      assert forall j | 0 <= j < |tail| :: tail[j] == members[j + 1];
      ScanMissesMember(tail, d, key, rest);
      var colon := [':'] + (m.gap + Emit(m.value, m.after + more));
      OtherKeySkips(m, key, colon);
      FieldSkips(m, d, more, 1);
      if tail != [] { InertCharSkips(',', EmitMembers(tail, ['}'] + rest), 1); }
    }
  }

  /**
   * On a well-formed object with distinct keys FieldValueStart points at the value of the key asked for, whatever the
   * strings and nested objects around it contain.
   */
  lemma FieldFound(before: string, v: Value, d: nat, i: nat, rest: string) returns (after: string)
    requires AllWs(before) && v.Obj? && ValueOk(v, d) && i < |v.members|
    ensures Ends(after)
    ensures FieldText(before + Emit(v, rest), v.members[i].key) == Some(Emit(v.members[i].value, after))
  {
    hide MembersOk, FreshKeys, EmitMembers;
    FreshKeysMeansDistinct(v.members, {});
    after := ScanFindsMember(v.members, d + 1, i, rest);
    var s := Emit(v, rest);
    SpaceOverWs(before, s);
    assert v.pad + EmitMembers(v.members, ['}'] + rest) == EmitMembers(v.members, ['}'] + rest);
  }

  /** And at nothing when the object has no such key, if nothing but whitespace follows the object. */
  lemma FieldMissing(before: string, v: Value, d: nat, key: string, rest: string)
    requires AllWs(before) && v.Obj? && ValueOk(v, d) && AllWs(rest)
    requires forall j | 0 <= j < |v.members| :: v.members[j].key != key
    ensures FieldText(before + Emit(v, rest), key) == None
  {
    hide MembersOk, FreshKeys, EmitMembers, AllWs;
    ScanMissesMember(v.members, d + 1, key, rest);
    var s := Emit(v, rest);
    SpaceOverWs(before, s);
    var body := EmitMembers(v.members, ['}'] + rest);
    WsSkips(v.pad, body, 1);
    ScanWsEnds(rest, key);
  }

  lemma {:induction false} ScanWsEnds(rest: string, key: string)
    requires AllWs(rest)
    ensures Scan(rest, key, 0) == None
  {
    if rest != "" { ScanWsEnds(rest[1..], key); }
  }
}
