/**
 * JSON texts as trees that keep every byte: RFC 8259, sections 2 to 7. `Emit(v, rest)` is the text of `v` followed by
 * `rest`; a text belongs to the grammar when some well-formed tree emits it.
 */
module JsonText {
  import opened Types

  // ----- Characters (sections 2, 6 and 7) -----

  predicate IsWs(c: char) { c == ' ' || c == '\t' || c == '\r' || c == '\n' }
  predicate IsDigit(c: char) { '0' <= c <= '9' }
  predicate IsHex(c: char) { IsDigit(c) || 'a' <= c <= 'f' || 'A' <= c <= 'F' }
  predicate StartsWithFourHex(s: string) { |s| >= 4 && IsHex(s[0]) && IsHex(s[1]) && IsHex(s[2]) && IsHex(s[3]) }
  predicate IsSimpleEscape(c: char) { c in "\"\\/bfnrt" }

  predicate AllWs(s: string) {
    s == "" || (IsWs(s[0]) && AllWs(s[1..]))
  }

  predicate AllDigits(s: string) {
    s == "" || (IsDigit(s[0]) && AllDigits(s[1..]))
  }

  // ----- Trees -----

  datatype Exponent = Exponent(mark: char, sign: string, digits: string)
  datatype Num = Num(minus: bool, whole: string, fraction: Option<string>, exponent: Option<Exponent>)

  datatype Value =
    | Literal(text: string)
    | Number(num: Num)
    | Str(raw: string)
    | Arr(pad: string, items: seq<Item>)
    | Obj(pad: string, members: seq<Member>)

  /** An array element with the whitespace around it. */
  datatype Item = Item(before: string, value: Value, after: string)

  /** An object member: `before "key" mid : gap value after`, the key as it is spelled between its quotes. */
  datatype Member = Member(before: string, key: string, mid: string, gap: string, value: Value, after: string)

  // ----- Well-formedness -----

  const MAXIMUM_DEPTH := 64

  /** Section 7: the characters between the quotes of a string. */
  predicate RawOk(raw: string) {
    raw == "" ||
    if raw[0] == '\\' then
      |raw| >= 2 &&
      if IsSimpleEscape(raw[1]) then RawOk(raw[2..])
      else raw[1] == 'u' && StartsWithFourHex(raw[2..]) && RawOk(raw[6..])
    else raw[0] != '"' && raw[0] >= ' ' && RawOk(raw[1..])
  }

  predicate ExponentOk(e: Exponent) {
    (e.mark == 'e' || e.mark == 'E') && (e.sign == "" || e.sign == "+" || e.sign == "-")
    && e.digits != "" && AllDigits(e.digits)
  }

  /** Section 6. */
  predicate NumOk(n: Num) {
    && n.whole != "" && AllDigits(n.whole) && (n.whole[0] == '0' ==> n.whole == "0")
    && (n.fraction.Some? ==> n.fraction.value != "" && AllDigits(n.fraction.value))
    && (n.exponent.Some? ==> ExponentOk(n.exponent.value))
  }

  /** A finite double, as the number token it is printed as. */
  type Double = n: Num | NumOk(n) witness ZERO

  const ZERO := Num(false, "0", None, None)

  predicate IsLiteral(text: string) { text == "true" || text == "false" || text == "null" }

  predicate MemberSpacing(m: Member) { AllWs(m.before) && AllWs(m.mid) && AllWs(m.gap) && AllWs(m.after) }

  /** A value at nesting depth `d`; what is inside a container is one deeper. */
  predicate ValueOk(v: Value, d: nat)
    decreases v, 1
  {
    && d <= MAXIMUM_DEPTH
    && match v
       case Literal(text) => IsLiteral(text)
       case Number(n) => NumOk(n)
       case Str(raw) => RawOk(raw)
       case Arr(pad, items) => AllWs(pad) && (items != [] ==> pad == "") && ItemsOk(items, d + 1)
       case Obj(pad, members) =>
         AllWs(pad) && (members != [] ==> pad == "") && MembersOk(members, d + 1) && FreshKeys(members, {})
  }

  predicate ItemsOk(items: seq<Item>, d: nat)
    decreases items, 0
  {
    items == [] ||
    (AllWs(items[0].before) && AllWs(items[0].after) && ValueOk(items[0].value, d) && ItemsOk(items[1..], d))
  }

  predicate MembersOk(members: seq<Member>, d: nat)
    decreases members, 0
  {
    members == [] ||
    (MemberSpacing(members[0]) && RawOk(members[0].key) && ValueOk(members[0].value, d) && MembersOk(members[1..], d))
  }

  /** No key repeats, nor is in `used`. */
  predicate FreshKeys(members: seq<Member>, used: set<string>) {
    members == [] || (members[0].key !in used && FreshKeys(members[1..], used + {members[0].key}))
  }

  // ----- Text -----

  function EmitNum(n: Num, rest: string): string {
    (if n.minus then "-" else "") + (n.whole + EmitFraction(n.fraction, EmitExponent(n.exponent, rest)))
  }

  function EmitFraction(f: Option<string>, rest: string): string {
    if f.None? then rest else ['.'] + (f.value + rest)
  }

  function EmitExponent(e: Option<Exponent>, rest: string): string {
    if e.None? then rest else [e.value.mark] + (e.value.sign + (e.value.digits + rest))
  }

  function EmitStr(raw: string, rest: string): string {
    ['"'] + (raw + (['"'] + rest))
  }

  function Emit(v: Value, rest: string): (text: string)
    decreases v, 1
  {
    match v
    case Literal(text) => text + rest
    case Number(n) => EmitNum(n, rest)
    case Str(raw) => EmitStr(raw, rest)
    case Arr(pad, items) => ['['] + (pad + EmitItems(items, [']'] + rest))
    case Obj(pad, members) => ['{'] + (pad + EmitMembers(members, ['}'] + rest))
  }

  function EmitItems(items: seq<Item>, rest: string): string
    decreases items, 0
  {
    if items == [] then rest
    else items[0].before + Emit(items[0].value, items[0].after + MoreItems(items[1..], rest))
  }

  /** What follows an element. */
  function MoreItems(items: seq<Item>, rest: string): string
    decreases items, 1
  {
    if items == [] then rest else [','] + EmitItems(items, rest)
  }

  function EmitMembers(members: seq<Member>, rest: string): string
    decreases members, 0
  {
    if members == [] then rest
    else
      var m := members[0];
      m.before + EmitStr(m.key, m.mid + ([':'] + (m.gap + Emit(m.value, m.after + MoreMembers(members[1..], rest)))))
  }

  function MoreMembers(members: seq<Member>, rest: string): string
    decreases members, 1
  {
    if members == [] then rest else [','] + EmitMembers(members, rest)
  }

  // ----- Distinct keys, as a quantifier -----

  lemma {:induction false} FreshKeysMeansDistinct(members: seq<Member>, used: set<string>)
    ensures FreshKeys(members, used) <==>
              && (forall i | 0 <= i < |members| :: members[i].key !in used)
              && (forall i, j | 0 <= i < j < |members| :: members[i].key != members[j].key)
  {
    if members != [] {
      var tail := members[1..];
      FreshKeysMeansDistinct(tail, used + {members[0].key});
      assert forall i | 1 <= i < |members| :: members[i] == tail[i - 1];
      assert forall i | 0 <= i < |tail| :: tail[i] == members[i + 1];
    }
  }
}
