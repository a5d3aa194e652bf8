/**
 * JsonSyntaxValidator: the recursive-descent checker every configuration and session file passes first. The functions
 * say what each of its methods consumes; the lemmas show that this is exactly the grammar of JsonText.
 */
module JsonSyntax {
  import opened Types
  import opened JsonText

  // ----- What each parser method leaves unread; None when it fails -----

  function SkipWs(s: string): (r: string)
    ensures |r| <= |s|
  {
    if s != "" && IsWs(s[0]) then SkipWs(s[1..]) else s
  }

  function SkipDigits(s: string): (r: string)
    ensures |r| <= |s|
  {
    if s != "" && IsDigit(s[0]) then SkipDigits(s[1..]) else s
  }

  function StringTail(s: string): (r: Option<string>)
    ensures r.Some? ==> |r.value| < |s|
  {
    if s == "" then None
    else if s[0] == '"' then Some(s[1..])
    else if s[0] < ' ' then None
    else if s[0] != '\\' then StringTail(s[1..])
    else if |s| < 2 then None
    else if IsSimpleEscape(s[1]) then StringTail(s[2..])
    else if s[1] == 'u' && StartsWithFourHex(s[2..]) then StringTail(s[6..])
    else None
  }

  function PString(s: string): (r: Option<string>)
    ensures r.Some? ==> |r.value| < |s|
  {
    if s == "" || s[0] != '"' then None else StringTail(s[1..])
  }

  function PWhole(s: string): (r: Option<string>)
    ensures r.Some? ==> |r.value| < |s|
  {
    if s == "" then None
    else if s[0] == '0' then (if |s| > 1 && IsDigit(s[1]) then None else Some(s[1..]))
    else if '1' <= s[0] <= '9' then Some(SkipDigits(s[1..]))
    else None
  }

  function PDigits(s: string): (r: Option<string>)
    ensures r.Some? ==> |r.value| <= |s|
  {
    if s == "" || !IsDigit(s[0]) then None else Some(SkipDigits(s))
  }

  function PFraction(s: string): (r: Option<string>)
    ensures r.Some? ==> |r.value| <= |s|
  {
    if s != "" && s[0] == '.' then PDigits(s[1..]) else Some(s)
  }

  function SkipSign(s: string): (r: string)
    ensures |r| <= |s|
  {
    if s != "" && (s[0] == '+' || s[0] == '-') then s[1..] else s
  }

  function PExponent(s: string): (r: Option<string>)
    ensures r.Some? ==> |r.value| <= |s|
  {
    if s != "" && (s[0] == 'e' || s[0] == 'E') then PDigits(SkipSign(s[1..])) else Some(s)
  }

  function PNumber(s: string): (r: Option<string>)
    ensures r.Some? ==> |r.value| < |s|
  {
    var s1 :- PWhole(if s != "" && s[0] == '-' then s[1..] else s);
    var s2 :- PFraction(s1);
    PExponent(s2)
  }

  function PLiteral(s: string, text: string): (r: Option<string>)
    ensures r.Some? ==> |r.value| <= |s| - |text|
  {
    if text <= s then Some(s[|text|..]) else None
  }

  function PValue(s: string, d: nat): (r: Option<string>)
    ensures r.Some? ==> |r.value| < |s|
    decreases |s|, 3
  {
    if d > MAXIMUM_DEPTH then None
    else
      var t := SkipWs(s);
      if t == "" then None
      else if t[0] == '{' then PObject(t, d)
      else if t[0] == '[' then PArray(t, d)
      else if t[0] == '"' then PString(t)
      else if t[0] == 't' then PLiteral(t, "true")
      else if t[0] == 'f' then PLiteral(t, "false")
      else if t[0] == 'n' then PLiteral(t, "null")
      else PNumber(t)
  }

  function PArray(s: string, d: nat): (r: Option<string>)
    requires s != "" && s[0] == '['
    ensures r.Some? ==> |r.value| < |s|
    decreases |s|, 2
  {
    var t := SkipWs(s[1..]);
    if d > MAXIMUM_DEPTH then None
    else if t != "" && t[0] == ']' then Some(t[1..])
    else PItems(t, d)
  }

  function PItems(s: string, d: nat): (r: Option<string>)
    ensures r.Some? ==> |r.value| < |s|
    decreases |s|, 4
  {
    var s1 :- PValue(s, d + 1);
    var t := SkipWs(s1);
    if t != "" && t[0] == ']' then Some(t[1..])
    else if t != "" && t[0] == ',' then PItems(t[1..], d)
    else None
  }

  function PObject(s: string, d: nat): (r: Option<string>)
    requires s != "" && s[0] == '{'
    ensures r.Some? ==> |r.value| < |s|
    decreases |s|, 2
  {
    var t := SkipWs(s[1..]);
    if d > MAXIMUM_DEPTH then None
    else if t != "" && t[0] == '}' then Some(t[1..])
    else PMembers(t, d, {})
  }

  /** One member: its key, quotes included, and what follows its value. */
  function PMember(s: string, d: nat, used: set<string>): (r: Option<(string, string)>)
    ensures r.Some? ==> |r.value.1| < |s|
    decreases |s|, 4
  {
    var t := SkipWs(s);
    var s1 :- PString(t);
    var key := t[..|t| - |s1|];
    var colon := SkipWs(s1);
    if key in used || colon == "" || colon[0] != ':' then None
    else
      var s2 :- PValue(colon[1..], d + 1);
      Some((key, s2))
  }

  function PMembers(s: string, d: nat, used: set<string>): (r: Option<string>)
    ensures r.Some? ==> |r.value| < |s|
    decreases |s|, 5
  {
    var (key, s2) :- PMember(s, d, used);
    var u := SkipWs(s2);
    if u != "" && u[0] == '}' then Some(u[1..])
    else if u != "" && u[0] == ',' then PMembers(u[1..], d, used + {key})
    else None
  }

  // ----- Completeness: what the grammar emits is consumed -----

  /** A number ends where `rest` begins. */
  predicate Stops(rest: string) {
    rest == "" || !(IsDigit(rest[0]) || rest[0] in ".eE")
  }

  lemma {:induction false} SkipsWs(w: string, rest: string)
    requires AllWs(w)
    ensures SkipWs(w + rest) == SkipWs(rest)
  {
    if w == "" {
      assert w + rest == rest;
    } else {
      assert (w + rest)[1..] == w[1..] + rest;
      SkipsWs(w[1..], rest);
    }
  }

  lemma {:induction false} SkipsDigits(w: string, rest: string)
    requires AllDigits(w) && (rest == "" || !IsDigit(rest[0]))
    ensures SkipDigits(w + rest) == rest
  {
    if w == "" {
      assert w + rest == rest;
    } else {
      assert (w + rest)[1..] == w[1..] + rest;
      SkipsDigits(w[1..], rest);
    }
  }

  lemma {:induction false} StringTailEmitted(raw: string, rest: string)
    requires RawOk(raw)
    ensures StringTail(raw + (['"'] + rest)) == Some(rest)
    decreases |raw|
  {
    var s := raw + (['"'] + rest);
    if raw == "" {
      assert s == ['"'] + rest;
    } else if raw[0] != '\\' {
      assert s[1..] == raw[1..] + (['"'] + rest);
      StringTailEmitted(raw[1..], rest);
    } else if IsSimpleEscape(raw[1]) {
      assert s[1] == raw[1] && s[2..] == raw[2..] + (['"'] + rest);
      StringTailEmitted(raw[2..], rest);
    } else {
      assert s[1] == raw[1] && s[2..] == raw[2..] + (['"'] + rest) && s[6..] == raw[6..] + (['"'] + rest);
      StringTailEmitted(raw[6..], rest);
    }
  }

  lemma StringEmitted(raw: string, rest: string)
    requires RawOk(raw)
    ensures PString(EmitStr(raw, rest)) == Some(rest)
  {
    StringTailEmitted(raw, rest);
  }

  lemma WholeEmitted(whole: string, rest: string)
    requires whole != "" && AllDigits(whole) && (whole[0] == '0' ==> whole == "0")
    requires rest == "" || !IsDigit(rest[0])
    ensures PWhole(whole + rest) == Some(rest)
  {
    assert (whole + rest)[1..] == whole[1..] + rest;
    SkipsDigits(whole[1..], rest);
  }

  lemma DigitsEmitted(digits: string, rest: string)
    requires digits != "" && AllDigits(digits)
    requires rest == "" || !IsDigit(rest[0])
    ensures PDigits(digits + rest) == Some(rest)
  {
    SkipsDigits(digits, rest);
  }

  lemma ExponentEmitted(e: Option<Exponent>, rest: string)
    requires (e.Some? ==> ExponentOk(e.value)) && Stops(rest)
    ensures PExponent(EmitExponent(e, rest)) == Some(rest)
    ensures var s := EmitExponent(e, rest); s == "" || !(IsDigit(s[0]) || s[0] == '.')
  {
    if e.Some? {
      var body := e.value.digits + rest;
      assert (e.value.sign + body)[|e.value.sign|..] == body;
      assert SkipSign(e.value.sign + body) == body;
      DigitsEmitted(e.value.digits, rest);
    }
  }

  lemma FractionEmitted(f: Option<string>, rest: string)
    requires f.Some? ==> f.value != "" && AllDigits(f.value)
    requires rest == "" || !(IsDigit(rest[0]) || rest[0] == '.')
    ensures PFraction(EmitFraction(f, rest)) == Some(rest)
    ensures var s := EmitFraction(f, rest); s == "" || !IsDigit(s[0])
  {
    if f.Some? {
      DigitsEmitted(f.value, rest);
    }
  }

  lemma NumberEmitted(n: Num, rest: string)
    requires NumOk(n) && Stops(rest)
    ensures var s := EmitNum(n, rest);
            PNumber(s) == Some(rest) && s != "" && (IsDigit(s[0]) || s[0] == '-')
  {
    var s2 := EmitExponent(n.exponent, rest);
    var s1 := EmitFraction(n.fraction, s2);
    ExponentEmitted(n.exponent, rest);
    FractionEmitted(n.fraction, s2);
    WholeEmitted(n.whole, s1);
    assert EmitNum(n, rest)[(if n.minus then 1 else 0)..] == n.whole + s1;
  }

  lemma LiteralEmitted(text: string, rest: string)
    ensures PLiteral(text + rest, text) == Some(rest)
  {
    assert (text + rest)[..|text|] == text;
  }

  function Quoted(key: string): string { ['"'] + key + ['"'] }

  lemma QuotedIsInjective(a: string, b: string)
    ensures Quoted(a) == Quoted(b) <==> a == b
  {
    assert Quoted(a)[1..|a| + 1] == a && Quoted(b)[1..|b| + 1] == b;
  }

  predicate Mirrors(quoted: set<string>, used: set<string>) {
    quoted == set k | k in used :: Quoted(k)
  }

  lemma MirrorsMember(quoted: set<string>, used: set<string>, key: string)
    requires Mirrors(quoted, used)
    ensures Quoted(key) in quoted <==> key in used
    ensures Mirrors(quoted + {Quoted(key)}, used + {key})
  {
    forall k: string ensures Quoted(k) == Quoted(key) <==> k == key {
      QuotedIsInjective(k, key);
    }
  }

  /** After a value come whitespace and then a separator or the closing bracket. */
  lemma AfterValue(after: string, rest: string)
    requires AllWs(after) && rest != "" && rest[0] in ",]}"
    ensures Stops(after + rest) && SkipWs(after + rest) == rest
  {
    SkipsWs(after, rest);
  }

  // Leading whitespace makes no difference to a value, nor to what starts with one.

  lemma {:induction false} SkipWsTwice(s: string)
    ensures SkipWs(SkipWs(s)) == SkipWs(s)
  {
    if s != "" && IsWs(s[0]) { SkipWsTwice(s[1..]); }
  }

  lemma ItemsStep(s: string, d: nat)
    ensures PItems(s, d)
            == var rest := PValue(s, d + 1);
               if rest.None? then None
               else
                 var u := SkipWs(rest.value);
                 if u != "" && u[0] == ']' then Some(u[1..])
                 else if u != "" && u[0] == ',' then PItems(u[1..], d)
                 else None
  {
    hide PValue, SkipWs;
  }

  lemma MembersStep(s: string, d: nat, used: set<string>)
    ensures PMembers(s, d, used)
            == var m := PMember(s, d, used);
               if m.None? then None
               else
                 var (key, rest) := m.value;
                 var u := SkipWs(rest);
                 if u != "" && u[0] == '}' then Some(u[1..])
                 else if u != "" && u[0] == ',' then PMembers(u[1..], d, used + {key})
                 else None
  {
    hide PMember, SkipWs;
  }

  lemma ItemsIgnoreLeadingWs(s: string, d: nat)
    ensures PItems(SkipWs(s), d) == PItems(s, d)
  {
    SkipWsTwice(s);
    assert PValue(SkipWs(s), d + 1) == PValue(s, d + 1) by {
      hide PObject, PArray, PString, PLiteral, PNumber;
    }
  }

  lemma MembersIgnoreLeadingWs(s: string, d: nat, used: set<string>)
    ensures PMembers(SkipWs(s), d, used) == PMembers(s, d, used)
  {
    hide PString, PValue;
    SkipWsTwice(s);
  }

  lemma ItemsDoNotStartWithBracket(s: string, d: nat)
    requires PItems(s, d).Some?
    ensures var t := SkipWs(s); t != "" && t[0] != ']'
  {
    hide PObject, PArray, PString, PLiteral;
  }

  lemma MembersDoNotStartWithBrace(s: string, d: nat, used: set<string>)
    requires PMembers(s, d, used).Some?
    ensures var t := SkipWs(s); t != "" && t[0] == '"'
  {
    hide PValue;
  }

  /** The first character of a value decides how it is read. */
  lemma ValueByFirstChar(w: string, t: string, d: nat)
    requires AllWs(w) && t != "" && !IsWs(t[0]) && d <= MAXIMUM_DEPTH
    ensures PValue(w + t, d) == if t[0] == '{' then PObject(t, d) else if t[0] == '[' then PArray(t, d)
                                else if t[0] == '"' then PString(t) else if t[0] == 't' then PLiteral(t, "true")
                                else if t[0] == 'f' then PLiteral(t, "false")
                                else if t[0] == 'n' then PLiteral(t, "null") else PNumber(t)
  {
    hide PObject, PArray, PString, PNumber, PLiteral;
    SkipsWs(w, t);
    assert w + t != "";
  }

  lemma {:induction false} ValueEmitted(w: string, v: Value, d: nat, rest: string)
    requires AllWs(w) && ValueOk(v, d) && Stops(rest)
    ensures PValue(w + Emit(v, rest), d) == Some(rest)
    decreases v, 1
  {
    hide PValue, PObject, PArray, PString, PNumber, PLiteral, MembersOk, ItemsOk, FreshKeys, RawOk, NumOk, EmitItems,
         EmitMembers, Stops;
    var t := Emit(v, rest);
    match v
    case Literal(text) =>
      LiteralEmitted(text, rest);
      ValueByFirstChar(w, t, d);
    case Number(n) =>
      NumberEmitted(n, rest);
      ValueByFirstChar(w, t, d);
    case Str(raw) =>
      StringEmitted(raw, rest);
      ValueByFirstChar(w, t, d);
    case Arr(pad, items) =>
      ArrayEmitted(pad, items, d, rest);
      ValueByFirstChar(w, t, d);
    case Obj(pad, members) =>
      ObjectEmitted(pad, members, d, rest);
      ValueByFirstChar(w, t, d);
  }

  lemma {:induction false} ArrayEmitted(pad: string, items: seq<Item>, d: nat, rest: string)
    requires ValueOk(Arr(pad, items), d)
    ensures PArray(Emit(Arr(pad, items), rest), d) == Some(rest)
    decreases items, 2
  {
    hide PItems, EmitItems, ItemsOk;
    var body := EmitItems(items, [']'] + rest);
    SkipsWs(pad, body);
    if items != [] {
      ItemsEmitted(items, d, rest);
      ItemsIgnoreLeadingWs(body, d);
      ItemsDoNotStartWithBracket(body, d);
    } else {
      EmptyEmits([']'] + rest);
    }
  }

  lemma EmptyEmits(rest: string)
    ensures EmitItems([], rest) == rest && EmitMembers([], rest) == rest
  {
  }

  lemma {:induction false} ItemsEmitted(items: seq<Item>, d: nat, rest: string)
    requires items != [] && ItemsOk(items, d + 1)
    ensures PItems(EmitItems(items, [']'] + rest), d) == Some(rest)
    decreases items, 1
  {
    hide PValue, Emit, ValueOk;
    var item := items[0];
    var more := MoreItems(items[1..], [']'] + rest);
    AfterValue(item.after, more);
    ValueEmitted(item.before, item.value, d + 1, item.after + more);
    if |items| > 1 {
      ItemsEmitted(items[1..], d, rest);
      assert more[1..] == EmitItems(items[1..], [']'] + rest);
    }
  }

  lemma {:induction false} ObjectEmitted(pad: string, members: seq<Member>, d: nat, rest: string)
    requires ValueOk(Obj(pad, members), d)
    ensures PObject(Emit(Obj(pad, members), rest), d) == Some(rest)
    decreases members, 2
  {
    hide PMembers, EmitMembers, MembersOk, FreshKeys;
    var body := EmitMembers(members, ['}'] + rest);
    SkipsWs(pad, body);
    if members != [] {
      MembersEmitted(members, d, {}, {}, rest);
      MembersIgnoreLeadingWs(body, d, {});
      MembersDoNotStartWithBrace(body, d, {});
    } else {
      EmptyEmits(['}'] + rest);
    }
  }

  /** A key, its colon, and what stands before the value. */
  lemma KeyEmitted(m: Member, value: string)
    requires MemberSpacing(m) && RawOk(m.key)
    ensures var s := m.before + EmitStr(m.key, m.mid + ([':'] + (m.gap + value)));
            var t := SkipWs(s);
            && PString(t).Some?
            && t[..|t| - |PString(t).value|] == Quoted(m.key)
            && SkipWs(PString(t).value) == [':'] + (m.gap + value)
  {
    hide PString, EmitStr, SkipWs, Quoted, RawOk, AllWs;
    var colon := [':'] + (m.gap + value);
    var t := EmitStr(m.key, m.mid + colon);
    StartsWithQuote(m.key, m.mid + colon);
    SkipsWs(m.before, t);
    NothingToSkip(t);
    StringEmitted(m.key, m.mid + colon);
    KeyIsQuoted(m.key, m.mid + colon);
    SkipsWs(m.mid, colon);
    NothingToSkip(colon);
  }

  lemma NothingToSkip(s: string)
    requires s != "" && !IsWs(s[0])
    ensures SkipWs(s) == s
  {
  }

  lemma StartsWithQuote(key: string, rest: string)
    ensures EmitStr(key, rest) != "" && EmitStr(key, rest)[0] == '"'
  {
  }

  lemma KeyIsQuoted(key: string, rest: string)
    ensures var t := EmitStr(key, rest);
            |rest| <= |t| && t[..|t| - |rest|] == Quoted(key)
  {
  }

  lemma {:induction false} MembersEmitted(
    members: seq<Member>, d: nat, quoted: set<string>, used: set<string>, rest: string)
    requires members != [] && MembersOk(members, d + 1) && FreshKeys(members, used) && Mirrors(quoted, used)
    ensures PMembers(EmitMembers(members, ['}'] + rest), d, quoted) == Some(rest)
    decreases members, 1
  {
    hide PValue, PString, Emit, EmitStr, ValueOk, Mirrors, Quoted;
    var m := members[0];
    var more := MoreMembers(members[1..], ['}'] + rest);
    var value := Emit(m.value, m.after + more);
    KeyEmitted(m, value);
    MirrorsMember(quoted, used, m.key);
    AfterValue(m.after, more);
    ValueEmitted(m.gap, m.value, d + 1, m.after + more);
    assert ([':'] + (m.gap + value))[1..] == m.gap + value;
    if |members| > 1 {
      MembersEmitted(members[1..], d, quoted + {Quoted(m.key)}, used + {m.key}, rest);
      assert more[1..] == EmitMembers(members[1..], ['}'] + rest);
    }
  }

  // ----- Soundness: what is consumed is in the grammar -----

  lemma {:induction false} WsWasSkipped(s: string) returns (w: string)
    ensures AllWs(w) && s == w + SkipWs(s)
    ensures SkipWs(s) == "" || !IsWs(SkipWs(s)[0])
  {
    if s != "" && IsWs(s[0]) {
      var tail := WsWasSkipped(s[1..]);
      w := [s[0]] + tail;
      assert w[1..] == tail;
    } else {
      w := "";
    }
  }

  lemma {:induction false} DigitsWereSkipped(s: string) returns (w: string)
    ensures AllDigits(w) && s == w + SkipDigits(s)
    ensures s != "" && IsDigit(s[0]) ==> w != ""
  {
    if s != "" && IsDigit(s[0]) {
      var tail := DigitsWereSkipped(s[1..]);
      w := [s[0]] + tail;
      assert w[1..] == tail;
    } else {
      w := "";
    }
  }

  /** The characters `s[..skip]` make up one character of a string. */
  predicate IsOneCharacter(s: string, skip: nat) {
    skip <= |s| && skip in {1, 2, 6} && s[0] != '"' && s[0] >= ' '
    && (skip == 1 <==> s[0] != '\\')
    && (skip == 2 ==> IsSimpleEscape(s[1]))
    && (skip == 6 ==> s[1] == 'u' && StartsWithFourHex(s[2..]))
  }

  lemma RawPrepend(s: string, skip: nat, tail: string)
    requires IsOneCharacter(s, skip) && RawOk(tail)
    ensures RawOk(s[..skip] + tail)
  {
    var raw := s[..skip] + tail;
    assert raw[skip..] == tail;
    if skip == 6 {
      assert forall k | 0 <= k < 4 :: raw[2..][k] == s[2..][k];
      assert StartsWithFourHex(raw[2..]);
    }
  }

  /** A string ends here, or goes on after one character. */
  lemma StringTailStep(s: string) returns (skip: nat)
    requires StringTail(s).Some?
    ensures s != "" && 0 < skip <= |s|
    ensures s[0] == '"' ==> StringTail(s) == Some(s[1..])
    ensures s[0] != '"' ==> IsOneCharacter(s, skip) && StringTail(s[skip..]) == StringTail(s)
  {
    skip := if s[0] != '\\' then 1 else if IsSimpleEscape(s[1]) then 2 else 6;
  }

  lemma {:induction false} StringTailSound(s: string) returns (raw: string)
    requires StringTail(s).Some?
    ensures RawOk(raw) && s == raw + (['"'] + StringTail(s).value)
    decreases |s|
  {
    hide RawOk, StringTail, IsOneCharacter;
    var skip := StringTailStep(s);
    if s[0] == '"' {
      raw := "";
      EmptyRaw();
      assert s == [s[0]] + s[1..];
    } else {
      var tail := StringTailSound(s[skip..]);
      RawPrepend(s, skip, tail);
      raw := s[..skip] + tail;
      Rejoined(s, skip, tail, ['"'] + StringTail(s).value);
    }
  }

  lemma Rejoined(s: string, n: nat, a: string, b: string)
    requires n <= |s| && s[n..] == a + b
    ensures s == s[..n] + a + b
  {
    assert s == s[..n] + s[n..];
  }

  lemma EmptyRaw()
    ensures RawOk("")
  {
  }

  lemma StringSound(s: string) returns (raw: string)
    requires PString(s).Some?
    ensures RawOk(raw) && s == EmitStr(raw, PString(s).value)
  {
    raw := StringTailSound(s[1..]);
  }

  lemma WholeSound(s: string) returns (whole: string)
    requires PWhole(s).Some?
    ensures whole != "" && AllDigits(whole) && (whole[0] == '0' ==> whole == "0")
    ensures s == whole + PWhole(s).value
  {
    if s[0] == '0' {
      whole := "0";
    } else {
      var tail := DigitsWereSkipped(s[1..]);
      whole := [s[0]] + tail;
      assert whole[1..] == tail;
    }
  }

  lemma FractionSound(s: string) returns (f: Option<string>)
    requires PFraction(s).Some?
    ensures f.Some? ==> f.value != "" && AllDigits(f.value)
    ensures s == EmitFraction(f, PFraction(s).value)
  {
    if s != "" && s[0] == '.' {
      var digits := DigitsWereSkipped(s[1..]);
      f := Some(digits);
    } else {
      f := None;
    }
  }

  lemma SignWasSkipped(s: string) returns (sign: string)
    ensures (sign == "" || sign == "+" || sign == "-") && s == sign + SkipSign(s)
  {
    sign := s[..|s| - |SkipSign(s)|];
  }

  lemma ExponentSound(s: string) returns (e: Option<Exponent>)
    requires PExponent(s).Some?
    ensures e.Some? ==> ExponentOk(e.value)
    ensures s == EmitExponent(e, PExponent(s).value)
  {
    hide AllDigits, SkipDigits, SkipSign;
    if s != "" && (s[0] == 'e' || s[0] == 'E') {
      var unsigned := SkipSign(s[1..]);
      var sign := SignWasSkipped(s[1..]);
      var digits := DigitsWereSkipped(unsigned);
      e := Some(Exponent(s[0], sign, digits));
      assert s == [s[0]] + s[1..];
    } else {
      e := None;
    }
  }

  lemma NumberSound(s: string) returns (n: Num)
    requires PNumber(s).Some?
    ensures NumOk(n) && s == EmitNum(n, PNumber(s).value)
  {
    var minus := s != "" && s[0] == '-';
    var s0 := if minus then s[1..] else s;
    var whole := WholeSound(s0);
    var s1 := PWhole(s0).value;
    var f := FractionSound(s1);
    var s2 := PFraction(s1).value;
    var e := ExponentSound(s2);
    n := Num(minus, whole, f, e);
    assert s == (if minus then "-" else "") + s0;
  }

  lemma LiteralSound(s: string, text: string)
    requires PLiteral(s, text).Some?
    ensures s == text + PLiteral(s, text).value
  {
  }

  lemma {:induction false} ValueSound(s: string, d: nat) returns (w: string, v: Value)
    requires PValue(s, d).Some?
    ensures AllWs(w) && ValueOk(v, d) && s == w + Emit(v, PValue(s, d).value)
    decreases |s|, 3
  {
    hide PObject, PArray, PString, PNumber, MembersOk, ItemsOk, FreshKeys, RawOk, NumOk, EmitItems, EmitMembers,
      EmitStr, EmitNum;
    w := WsWasSkipped(s);
    var t := SkipWs(s);
    if t[0] == '{' {
      v := ObjectSound(t, d);
    } else if t[0] == '[' {
      v := ArraySound(t, d);
    } else if t[0] == '"' {
      var raw := StringSound(t);
      v := Str(raw);
    } else if t[0] in "tfn" {
      var text := if t[0] == 't' then "true" else if t[0] == 'f' then "false" else "null";
      LiteralSound(t, text);
      v := Literal(text);
    } else {
      var n := NumberSound(t);
      v := Number(n);
    }
  }

  lemma {:induction false} ArraySound(s: string, d: nat) returns (v: Value)
    requires s != "" && s[0] == '[' && PArray(s, d).Some?
    ensures ValueOk(v, d) && s == Emit(v, PArray(s, d).value)
    decreases |s|, 2
  {
    hide PItems;
    var w := WsWasSkipped(s[1..]);
    var t := SkipWs(s[1..]);
    if t != "" && t[0] == ']' {
      v := Arr(w, []);
      EmptyEmits([']'] + t[1..]);
    } else {
      ItemsIgnoreLeadingWs(s[1..], d);
      var items := ItemsSound(s[1..], d);
      v := Arr("", items);
    }
  }

  lemma {:induction false} ItemsSound(s: string, d: nat) returns (items: seq<Item>)
    requires d <= MAXIMUM_DEPTH && PItems(s, d).Some?
    ensures items != [] && ItemsOk(items, d + 1)
    ensures s == EmitItems(items, [']'] + PItems(s, d).value)
    decreases |s|, 4
  {
    hide PValue, Emit, ValueOk;
    var w, v := ValueSound(s, d + 1);
    var s1 := PValue(s, d + 1).value;
    var after := WsWasSkipped(s1);
    var t := SkipWs(s1);
    var item := Item(w, v, after);
    assert t == [t[0]] + t[1..];
    if t[0] == ']' {
      items := [item];
      assert MoreItems(items[1..], t) == t;
    } else {
      var tail := ItemsSound(t[1..], d);
      items := [item] + tail;
      assert items[1..] == tail;
    }
  }

  lemma {:induction false} ObjectSound(s: string, d: nat) returns (v: Value)
    requires s != "" && s[0] == '{' && PObject(s, d).Some?
    ensures ValueOk(v, d) && s == Emit(v, PObject(s, d).value)
    decreases |s|, 2
  {
    hide PMembers;
    var w := WsWasSkipped(s[1..]);
    var t := SkipWs(s[1..]);
    if t != "" && t[0] == '}' {
      v := Obj(w, []);
      EmptyEmits(['}'] + t[1..]);
    } else {
      MembersIgnoreLeadingWs(s[1..], d, {});
      var members := MembersSound(s[1..], d, {}, {});
      v := Obj("", members);
    }
  }

  lemma EmitStrIsQuoted(raw: string, rest: string)
    ensures var t := EmitStr(raw, rest); |t| >= |rest| && t[..|t| - |rest|] == Quoted(raw)
  {
    assert EmitStr(raw, rest) == Quoted(raw) + rest;
  }

  lemma KeySound(s: string) returns (before: string, key: string, mid: string)
    requires PString(SkipWs(s)).Some?
    ensures var t := SkipWs(s);
            var s1 := PString(t).value;
            && AllWs(before) && AllWs(mid) && RawOk(key)
            && t[..|t| - |s1|] == Quoted(key)
            && s == before + EmitStr(key, mid + SkipWs(s1))
  {
    hide PString, EmitStr, Quoted, RawOk;
    before := WsWasSkipped(s);
    var t := SkipWs(s);
    key := StringSound(t);
    var s1 := PString(t).value;
    mid := WsWasSkipped(s1);
    EmitStrIsQuoted(key, s1);
  }

  lemma {:induction false} OneMemberSound(s: string, d: nat, quoted: set<string>, used: set<string>)
    returns (m: Member)
    requires d <= MAXIMUM_DEPTH && PMember(s, d, quoted).Some? && Mirrors(quoted, used)
    ensures MemberSpacing(m) && RawOk(m.key) && ValueOk(m.value, d + 1) && m.key !in used
    ensures var (key, rest) := PMember(s, d, quoted).value;
            && key == Quoted(m.key)
            && s == m.before + EmitStr(m.key, m.mid + ([':'] + (m.gap + Emit(m.value, m.after + SkipWs(rest)))))
    decreases |s|, 4
  {
    hide PValue, PString, Emit, EmitStr, ValueOk, Mirrors, Quoted, RawOk;
    var before, key, mid := KeySound(s);
    MirrorsMember(quoted, used, key);
    var colon := SkipWs(PString(SkipWs(s)).value);
    assert colon == [':'] + colon[1..];
    var gap, v := ValueSound(colon[1..], d + 1);
    var after := WsWasSkipped(PValue(colon[1..], d + 1).value);
    m := Member(before, key, mid, gap, v, after);
  }

  lemma {:induction false} MembersSound(s: string, d: nat, quoted: set<string>, used: set<string>)
    returns (members: seq<Member>)
    requires d <= MAXIMUM_DEPTH && PMembers(s, d, quoted).Some? && Mirrors(quoted, used)
    ensures members != [] && MembersOk(members, d + 1) && FreshKeys(members, used)
    ensures s == EmitMembers(members, ['}'] + PMembers(s, d, quoted).value)
    decreases |s|, 5
  {
    hide PMember, PMembers, Emit, EmitStr, ValueOk, Mirrors, Quoted, RawOk, SkipWs, MemberSpacing;
    MembersStep(s, d, quoted);
    var m := OneMemberSound(s, d, quoted, used);
    MirrorsMember(quoted, used, m.key);
    var rest := PMember(s, d, quoted).value.1;
    var u := SkipWs(rest);
    SkippedIsShorter(rest);
    assert u == [u[0]] + u[1..];
    if u[0] == '}' {
      members := [m];
      assert MoreMembers(members[1..], u) == u;
    } else {
      var tail := MembersSound(u[1..], d, quoted + {Quoted(m.key)}, used + {m.key});
      members := [m] + tail;
      assert members[0] == m && members[1..] == tail;
    }
  }

  lemma SkippedIsShorter(s: string)
    ensures |SkipWs(s)| <= |s|
  {
  }

  // ----- Whole documents -----

  const BYTE_ORDER_MARK: string := [0xef as char, 0xbb as char, 0xbf as char]

  datatype Document = Document(marked: bool, before: string, value: Value, after: string)

  predicate DocumentOk(t: Document) {
    t.value.Obj? && ValueOk(t.value, 0) && AllWs(t.before) && AllWs(t.after)
  }

  function DocumentText(t: Document): string {
    (if t.marked then BYTE_ORDER_MARK else "") + (t.before + Emit(t.value, t.after))
  }

  /** The texts of JSON objects, RFC 8259 with this program's limits on depth and repeated keys. */
  ghost predicate IsObjectText(s: string) {
    exists t: Document :: DocumentOk(t) && s == DocumentText(t)
  }

  function SkipMark(s: string): string {
    if BYTE_ORDER_MARK <= s then s[3..] else s
  }

  predicate Accepts(s: string) {
    var t := SkipWs(SkipMark(s));
    t != "" && t[0] == '{' && PObject(t, 0).Some? && SkipWs(PObject(t, 0).value) == ""
  }

  lemma MarkIsUnambiguous(t: Document)
    requires DocumentOk(t)
    ensures SkipMark(DocumentText(t)) == t.before + Emit(t.value, t.after)
  {
    hide ValueOk, EmitMembers;
    var body := t.before + Emit(t.value, t.after);
    if t.marked {
      assert (BYTE_ORDER_MARK + body)[3..] == body;
    } else {
      assert DocumentText(t) == body;
      assert body[0] == if t.before == "" then '{' else t.before[0];
    }
  }

  lemma DocumentAccepted(t: Document)
    requires DocumentOk(t)
    ensures Accepts(DocumentText(t))
  {
    hide PObject, ValueOk, EmitMembers, SkipMark, MembersOk, FreshKeys;
    MarkIsUnambiguous(t);
    var body := Emit(t.value, t.after);
    SkipsWs(t.before, body);
    SkipsWs(t.after, "");
    assert t.after + "" == t.after;
    ObjectEmitted(t.value.pad, t.value.members, 0, t.after);
  }

  lemma AcceptedIsDocument(s: string) returns (t: Document)
    requires Accepts(s)
    ensures DocumentOk(t) && s == DocumentText(t)
  {
    hide PObject, ValueOk, Emit;
    var unmarked := SkipMark(s);
    var before := WsWasSkipped(unmarked);
    var v := ObjectSound(SkipWs(unmarked), 0);
    var after := WsWasSkipped(PObject(SkipWs(unmarked), 0).value);
    t := Document(BYTE_ORDER_MARK <= s, before, v, after);
    assert after + "" == after;
    assert v.Obj? by { ObjectStartsWithBrace(v, after); }
  }

  lemma ObjectStartsWithBrace(v: Value, rest: string)
    requires ValueOk(v, 0) && Emit(v, rest) != "" && Emit(v, rest)[0] == '{'
    ensures v.Obj?
  {
  }

  /** Acceptance is membership in the grammar, in both directions. */
  lemma AcceptsExactlyObjectTexts(s: string)
    ensures Accepts(s) <==> IsObjectText(s)
  {
    if Accepts(s) {
      var t := AcceptedIsDocument(s);
    }
    forall t: Document | DocumentOk(t) && s == DocumentText(t) ensures Accepts(s) {
      DocumentAccepted(t);
    }
  }

  // ----- The validator -----

  class JsonSyntaxValidator {
    const input: string
    var position: nat

    ghost predicate Valid()
      reads this
    {
      position <= |input|
    }

    ghost function Unread(): string
      requires Valid()
      reads this
    {
      input[position..]
    }

    constructor (input: string)
      ensures Valid() && this.input == input && Unread() == input
    {
      this.input := input;
      position := 0;
    }

    method SkipWhitespace()
      requires Valid()
      modifies this
      ensures Valid() && Unread() == SkipWs(old(Unread()))
      ensures position >= old(position)
    {
      while position < |input| && IsWs(input[position])
        invariant old(position) <= position <= |input|
        invariant SkipWs(old(Unread())) == SkipWs(Unread())
      {
        assert Unread()[1..] == input[position + 1..];
        position := position + 1;
      }
    }

    method Consume(value: char) returns (ok: bool)
      requires Valid()
      modifies this
      ensures Valid() && position >= old(position)
      ensures var t := SkipWs(old(Unread()));
              ok == (t != "" && t[0] == value) && Unread() == if ok then t[1..] else t
    {
      SkipWhitespace();
      if position >= |input| || input[position] != value { return false; }
      assert Unread()[1..] == input[position + 1..];
      position := position + 1;
      return true;
    }

    method ParseString() returns (ok: bool)
      requires Valid()
      modifies this
      ensures Valid() && ok == PString(old(Unread())).Some?
      ensures ok ==> Unread() == PString(old(Unread())).value
    {
      ghost var start := Unread();
      if position >= |input| { return false; }
      position := position + 1;
      if input[position - 1] != '"' { return false; }
      assert start[1..] == Unread();
      while position < |input|
        invariant Valid() && StringTail(start[1..]) == StringTail(Unread())
      {
        ghost var s := Unread();
        var value := input[position];
        position := position + 1;
        assert Unread() == s[1..];
        if value == '"' { return true; }
        if value < ' ' { return false; }
        if value != '\\' { continue; }
        if position >= |input| { return false; }
        var escape := input[position];
        position := position + 1;
        assert Unread() == s[2..];
        if IsSimpleEscape(escape) { continue; }
        if escape != 'u' || position + 4 > |input| { return false; }
        ok := TakeHex();
        if !ok { return; }
        assert Unread() == s[6..];
      }
      return false;
    }

    method TakeHex() returns (ok: bool)
      requires position + 4 <= |input|
      modifies this
      ensures Valid() && ok == StartsWithFourHex(old(Unread()))
      ensures ok ==> position == old(position) + 4
    {
      ghost var s := Unread();
      var digit := 0;
      while digit < 4
        invariant 0 <= digit <= 4 && position == old(position) + digit
        invariant forall k | 0 <= k < digit :: IsHex(s[k])
      {
        position := position + 1;
        assert input[position - 1] == s[digit];
        if !IsHex(input[position - 1]) { return false; }
        digit := digit + 1;
      }
      return true;
    }

    /** The loop over a run of digits. */
    method TakeDigits()
      requires Valid()
      modifies this
      ensures Valid() && Unread() == SkipDigits(old(Unread()))
      ensures position == old(position) <==> (old(Unread()) == "" || !IsDigit(old(Unread())[0]))
      ensures position >= old(position)
    {
      while position < |input| && IsDigit(input[position])
        invariant old(position) <= position <= |input|
        invariant SkipDigits(old(Unread())) == SkipDigits(Unread())
        invariant position > old(position) ==> IsDigit(input[old(position)])
      {
        assert Unread()[1..] == input[position + 1..];
        position := position + 1;
      }
    }

    /** The part of ParseNumber up to the decimal point. */
    method ParseWhole() returns (ok: bool)
      requires Valid()
      modifies this
      ensures Valid() && ok == PWhole(old(Unread())).Some?
      ensures ok ==> Unread() == PWhole(old(Unread())).value
    {
      ghost var s := Unread();
      if position >= |input| { return false; }
      if input[position] == '0' {
        position := position + 1;
        assert Unread() == s[1..];
        if position < |input| && IsDigit(input[position]) { return false; }
      } else if '1' <= input[position] <= '9' {
        TakeDigits();
      } else {
        return false;
      }
      return true;
    }

    method ParseFraction() returns (ok: bool)
      requires Valid()
      modifies this
      ensures Valid() && ok == PFraction(old(Unread())).Some?
      ensures ok ==> Unread() == PFraction(old(Unread())).value
    {
      ghost var s := Unread();
      if position < |input| && input[position] == '.' {
        position := position + 1;
        assert Unread() == s[1..];
        var fraction := position;
        TakeDigits();
        if fraction == position { return false; }
      }
      return true;
    }

    method ParseExponent() returns (ok: bool)
      requires Valid()
      modifies this
      ensures Valid() && ok == PExponent(old(Unread())).Some?
      ensures ok ==> Unread() == PExponent(old(Unread())).value
    {
      ghost var s := Unread();
      if position < |input| && (input[position] == 'e' || input[position] == 'E') {
        position := position + 1;
        assert Unread() == s[1..];
        if position < |input| && (input[position] == '+' || input[position] == '-') {
          position := position + 1;
        }
        assert Unread() == SkipSign(s[1..]);
        var exponent := position;
        TakeDigits();
        if exponent == position { return false; }
      }
      return true;
    }

    method ParseNumber() returns (ok: bool)
      requires Valid()
      modifies this
      ensures Valid() && ok == PNumber(old(Unread())).Some?
      ensures ok ==> Unread() == PNumber(old(Unread())).value
    {
      hide PWhole, PFraction, PExponent;
      ghost var s := Unread();
      if position < |input| && input[position] == '-' {
        position := position + 1;
        assert Unread() == s[1..];
      }
      ok := ParseWhole();
      if ok { ok := ParseFraction(); }
      if ok { ok := ParseExponent(); }
    }

    method ParseLiteral(literal: string) returns (ok: bool)
      requires Valid()
      modifies this
      ensures Valid() && ok == PLiteral(old(Unread()), literal).Some?
      ensures ok ==> Unread() == PLiteral(old(Unread()), literal).value
    {
      if !(literal <= input[position..]) { return false; }
      assert Unread()[|literal|..] == input[position + |literal|..];
      position := position + |literal|;
      return true;
    }

    method ParseArray(depth: nat) returns (ok: bool)
      requires Valid() && Unread() != "" && Unread()[0] == '['
      modifies this
      ensures Valid() && ok == PArray(old(Unread()), depth).Some?
      ensures ok ==> Unread() == PArray(old(Unread()), depth).value
      decreases |input| - position, 2
    {
      hide PValue, PItems;
      if depth > MAXIMUM_DEPTH { return false; }
      ok := Consume('[');
      SkipWhitespace();
      ghost var t := Unread();
      if position < |input| && input[position] == ']' {
        position := position + 1;
        assert Unread() == t[1..];
        return true;
      }
      ok := ParseItems(depth);
    }

    /** The loop over the items. */
    method ParseItems(depth: nat) returns (ok: bool)
      requires Valid()
      modifies this
      ensures Valid() && ok == PItems(old(Unread()), depth).Some?
      ensures ok ==> Unread() == PItems(old(Unread()), depth).value
      decreases |input| - position, 5
    {
      hide PValue, PItems, SkipWs;
      ghost var t := Unread();
      while true
        invariant Valid() && position >= old(position)
        invariant PItems(t, depth) == PItems(Unread(), depth)
        decreases |input| - position
      {
        ghost var s := Unread();
        ItemsStep(s, depth);
        ok := ParseValue(depth + 1);
        if !ok { return; }
        SkipWsTwice(Unread());
        SkipWhitespace();
        ghost var u := Unread();
        if position < |input| && input[position] == ']' {
          position := position + 1;
          assert Unread() == u[1..];
          return true;
        }
        ok := Consume(',');
        if !ok { return; }
      }
    }

    /** A key that was not used before, its colon and its value. */
    method ParseMember(depth: nat, keys: set<string>) returns (ok: bool, key: string)
      requires Valid()
      modifies this
      ensures Valid() && ok == PMember(old(Unread()), depth, keys).Some?
      ensures ok ==> (key, Unread()) == PMember(old(Unread()), depth, keys).value
      decreases |input| - position, 4
    {
      hide PValue, PString;
      key := "";
      SkipWhitespace();
      var keyBegin := position;
      ghost var t := Unread();
      ok := ParseString();
      if !ok { return; }
      key := input[keyBegin..position];
      assert key == t[..|t| - |Unread()|];
      if key in keys { return false, key; }
      ok := Consume(':');
      if !ok { return; }
      ok := ParseValue(depth + 1);
    }

    method ParseObject(depth: nat) returns (ok: bool)
      requires Valid() && Unread() != "" && Unread()[0] == '{'
      modifies this
      ensures Valid() && ok == PObject(old(Unread()), depth).Some?
      ensures ok ==> Unread() == PObject(old(Unread()), depth).value
      decreases |input| - position, 2
    {
      hide PMember, PMembers;
      if depth > MAXIMUM_DEPTH { return false; }
      ok := Consume('{');
      SkipWhitespace();
      ghost var t := Unread();
      if position < |input| && input[position] == '}' {
        position := position + 1;
        assert Unread() == t[1..];
        return true;
      }
      ok := ParseMembers(depth);
    }

    /** The loop over the members; keys must not repeat. */
    method ParseMembers(depth: nat) returns (ok: bool)
      requires Valid()
      modifies this
      ensures Valid() && ok == PMembers(old(Unread()), depth, {}).Some?
      ensures ok ==> Unread() == PMembers(old(Unread()), depth, {}).value
      decreases |input| - position, 5
    {
      hide PMember, PMembers, SkipWs;
      ghost var t := Unread();
      var keys: set<string> := {};
      while true
        invariant Valid() && position >= old(position)
        invariant PMembers(t, depth, {}) == PMembers(Unread(), depth, keys)
        decreases |input| - position
      {
        ghost var s := Unread();
        MembersStep(s, depth, keys);
        var key;
        ok, key := ParseMember(depth, keys);
        if !ok { return; }
        SkipWsTwice(Unread());
        SkipWhitespace();
        ghost var u := Unread();
        if position < |input| && input[position] == '}' {
          position := position + 1;
          assert Unread() == u[1..];
          return true;
        }
        ok := Consume(',');
        if !ok { return; }
        keys := keys + {key};
      }
    }

    method ParseValue(depth: nat) returns (ok: bool)
      requires Valid()
      modifies this
      ensures Valid() && ok == PValue(old(Unread()), depth).Some?
      ensures ok ==> Unread() == PValue(old(Unread()), depth).value
      decreases |input| - position, 3
    {
      hide PObject, PArray, PString, PNumber, PLiteral;
      if depth > MAXIMUM_DEPTH { return false; }
      SkipWhitespace();
      if position >= |input| { return false; }
      match input[position] {
        case '{' => ok := ParseObject(depth);
        case '[' => ok := ParseArray(depth);
        case '"' => ok := ParseString();
        case 't' => ok := ParseLiteral("true");
        case 'f' => ok := ParseLiteral("false");
        case 'n' => ok := ParseLiteral("null");
        case _ => ok := ParseNumber();
      }
    }

    /** Terminates on every input and accepts exactly the object texts. */
    method ValidateObject() returns (ok: bool)
      requires Valid() && position == 0
      modifies this
      ensures ok <==> IsObjectText(input)
    {
      AcceptsExactlyObjectTexts(input);
      hide PObject, IsObjectText;
      if |input| >= 3 && input[0] == 0xef as char && input[1] == 0xbb as char && input[2] == 0xbf as char {
        position := 3;
      }
      assert Unread() == SkipMark(input);
      SkipWhitespace();
      if position >= |input| || input[position] != '{' { return false; }
      ok := ParseObject(0);
      if !ok { return; }
      SkipWhitespace();
      return position == |input|;
    }
  }
}
