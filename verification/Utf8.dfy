/** The UTF-8 gate of the helper protocol, measured against RFC 3629. */
module Utf8 {
  type byte = x: int | 0 <= x < 256

  const SLASH := 0x2f
  const BACKSLASH := 0x5c

  // ----- The standard (RFC 3629, sections 3 and 4) -----

  /** Unicode scalar values: code points that are not surrogates. */
  predicate IsScalar(v: int) {
    0 <= v <= 0x10ffff && !(0xd800 <= v <= 0xdfff)
  }

  function EncodeScalar(v: int): (s: seq<byte>)
    requires IsScalar(v)
    ensures 1 <= |s| <= 4
  {
    if v < 0x80 then [v]
    else if v < 0x800 then [0xc0 + v / 64, 0x80 + v % 64]
    else if v < 0x10000 then [0xe0 + v / 64 / 64, 0x80 + v / 64 % 64, 0x80 + v % 64]
    else [0xf0 + v / 64 / 64 / 64, 0x80 + v / 64 / 64 % 64, 0x80 + v / 64 % 64, 0x80 + v % 64]
  }

  /** What the protocol allows in a text: no control characters, and in a service name no path separators. */
  predicate Allowed(v: int, serviceName: bool) {
    IsScalar(v) && 0x20 <= v && !(serviceName && (v == SLASH || v == BACKSLASH))
  }

  predicate AllAllowed(points: seq<int>, serviceName: bool)
    ensures AllAllowed(points, serviceName) ==> AllScalar(points)
  {
    forall v | v in points :: Allowed(v, serviceName)
  }

  predicate AllScalar(points: seq<int>) {
    forall v | v in points :: IsScalar(v)
  }

  function Encode(points: seq<int>): seq<byte>
    requires AllScalar(points)
  {
    if points == [] then [] else EncodeScalar(points[0]) + Encode(points[1..])
  }

  // ----- What the loop computes -----

  /** Number of continuation bytes announced by a lead byte; -1 for a byte that cannot lead. */
  function Continuations(first: byte): int {
    if first <= 0x7f then 0
    else if 0xc2 <= first <= 0xdf then 1
    else if 0xe0 <= first <= 0xef then 2
    else if 0xf0 <= first <= 0xf4 then 3
    else -1
  }

  function LeadBits(first: byte): int {
    if first <= 0x7f then first
    else if first <= 0xdf then first % 32
    else if first <= 0xef then first % 16
    else first % 8
  }

  predicate IsContinuation(b: byte) { 0x80 <= b < 0xc0 }

  predicate AllContinuations(t: seq<byte>) {
    forall k | 0 <= k < |t| :: IsContinuation(t[k])
  }

  function Accumulate(point: int, tail: seq<byte>): int {
    if tail == [] then point
    else Accumulate(point, tail[..|tail| - 1]) * 64 + tail[|tail| - 1] % 64
  }

  /** The range checks made once all bytes of a sequence are read. */
  predicate Accepts(point: int, continuation: int, serviceName: bool) {
    && !((continuation == 2 && point < 0x800)
         || (continuation == 3 && point < 0x10000)
         || point > 0x10ffff
         || 0xd800 <= point <= 0xdfff)
    && !(point == 0 || point < 0x20 || (serviceName && (point == SLASH || point == BACKSLASH)))
  }

  /** The first sequence of `s`: its code point and length, or -1 when the loop would reject it. */
  function First(s: seq<byte>, serviceName: bool): (int, nat)
    requires s != []
  {
    var n := Continuations(s[0]);
    if n < 0 || n >= |s| || !AllContinuations(s[1..n + 1]) then (-1, 0)
    else
      var point := Accumulate(LeadBits(s[0]), s[1..n + 1]);
      if Accepts(point, n, serviceName) then (point, n + 1) else (-1, 0)
  }

  predicate ValidFrom(s: seq<byte>, serviceName: bool) {
    s == [] ||
    var (point, length) := First(s, serviceName);
    0 < length <= |s| && ValidFrom(s[length..], serviceName)
  }

  // ----- One sequence -----

  lemma Accumulate3(p: int, t: seq<byte>)
    requires |t| <= 3
    ensures |t| == 0 ==> Accumulate(p, t) == p
    ensures |t| == 1 ==> Accumulate(p, t) == p * 64 + t[0] % 64
    ensures |t| == 2 ==> Accumulate(p, t) == (p * 64 + t[0] % 64) * 64 + t[1] % 64
    ensures |t| == 3 ==> Accumulate(p, t) == ((p * 64 + t[0] % 64) * 64 + t[1] % 64) * 64 + t[2] % 64
  {
    if |t| > 0 {
      var u := t[..|t| - 1];
      if |u| > 0 {
        var w := u[..|u| - 1];
        if |w| > 0 { assert w[..0] == []; }
      }
    }
  }

  lemma Push(a: int, b: int)
    requires 0 <= b < 64
    ensures (a * 64 + b) / 64 == a && (a * 64 + b) % 64 == b
  {
  }

  /** What a continuation byte carries. */
  lemma Payload(b: byte)
    requires IsContinuation(b)
    ensures b == 0x80 + b % 64
  {
  }

  lemma Decoded2(a: byte, b: byte, v: int)
    requires Continuations(a) == 1 && IsContinuation(b)
    requires v == a % 32 * 64 + b % 64
    ensures IsScalar(v) && EncodeScalar(v) == [a, b]
  {
    Push(a % 32, b % 64);
    Payload(b);
    assert a == 0xc0 + a % 32;
  }

  lemma Decoded3(a: byte, b: byte, c: byte, v: int)
    requires Continuations(a) == 2 && IsContinuation(b) && IsContinuation(c)
    requires v == (a % 16 * 64 + b % 64) * 64 + c % 64
    requires 0x800 <= v && !(0xd800 <= v <= 0xdfff)
    ensures IsScalar(v) && EncodeScalar(v) == [a, b, c]
  {
    Push(a % 16, b % 64);
    Push(a % 16 * 64 + b % 64, c % 64);
    Payload(b);
    Payload(c);
    assert a == 0xe0 + a % 16;
  }

  lemma Decoded4(a: byte, b: byte, c: byte, d: byte, v: int)
    requires Continuations(a) == 3 && IsContinuation(b) && IsContinuation(c) && IsContinuation(d)
    requires v == ((a % 8 * 64 + b % 64) * 64 + c % 64) * 64 + d % 64
    requires 0x10000 <= v <= 0x10ffff
    ensures IsScalar(v) && EncodeScalar(v) == [a, b, c, d]
  {
    Push(a % 8, b % 64);
    Push(a % 8 * 64 + b % 64, c % 64);
    Push((a % 8 * 64 + b % 64) * 64 + c % 64, d % 64);
    Payload(b);
    Payload(c);
    Payload(d);
    assert a == 0xf0 + a % 8;
  }

  /** Soundness of one step: an accepted sequence is the encoding of an allowed scalar value. */
  lemma FirstIsEncoding(s: seq<byte>, serviceName: bool)
    requires s != [] && First(s, serviceName).1 > 0
    ensures var (point, length) := First(s, serviceName);
            Allowed(point, serviceName) && length <= |s| && s[..length] == EncodeScalar(point)
  {
    var n := Continuations(s[0]);
    var point := First(s, serviceName).0;
    var t := s[1..n + 1];
    Accumulate3(LeadBits(s[0]), t);
    if n == 0 {
      assert s[..1] == [s[0]];
    } else if n == 1 {
      Decoded2(s[0], s[1], point);
      assert s[..2] == [s[0], s[1]];
    } else if n == 2 {
      Decoded3(s[0], s[1], s[2], point);
      assert s[..3] == [s[0], s[1], s[2]];
    } else {
      Decoded4(s[0], s[1], s[2], s[3], point);
      assert s[..4] == [s[0], s[1], s[2], s[3]];
    }
  }

  lemma EncodedBytes(v: int)
    requires IsScalar(v)
    ensures var e := EncodeScalar(v);
            && Continuations(e[0]) == |e| - 1
            && AllContinuations(e[1..])
            && Accumulate(LeadBits(e[0]), e[1..]) == v
  {
    var e := EncodeScalar(v);
    Accumulate3(LeadBits(e[0]), e[1..]);
    if v < 0x80 {
    } else if v < 0x800 {
      EncodedLead(v / 64, 32, 0xc0);
    } else if v < 0x10000 {
      EncodedLead(v / 64 / 64, 16, 0xe0);
    } else {
      EncodedLead(v / 64 / 64 / 64, 8, 0xf0);
    }
    if |e| > 1 { EncodedTail(v); }
    if |e| > 2 { EncodedTail(v / 64); }
    if |e| > 3 { EncodedTail(v / 64 / 64); }
  }

  lemma EncodedLead(bits: int, size: int, mark: int)
    requires size in {8, 16, 32} && 0 <= bits < size && mark % size == 0
    ensures (mark + bits) % size == bits
  {
  }

  lemma EncodedTail(v: int)
    requires 0 <= v
    ensures (0x80 + v % 64) % 64 == v % 64 && v / 64 * 64 + v % 64 == v
  {
  }

  /** Completeness of one step: the encoding of an allowed scalar value is accepted whatever follows it. */
  lemma EncodingIsFirst(v: int, rest: seq<byte>, serviceName: bool)
    requires Allowed(v, serviceName)
    ensures First(EncodeScalar(v) + rest, serviceName) == (v, |EncodeScalar(v)|)
  {
    var e := EncodeScalar(v);
    var s := e + rest;
    EncodedBytes(v);
    assert s[0] == e[0] && s[1..|e|] == e[1..];
  }

  // ----- Whole texts -----

  lemma EncodeGrows(point: int, tail: seq<int>, serviceName: bool)
    requires Allowed(point, serviceName) && AllAllowed(tail, serviceName)
    ensures AllAllowed([point] + tail, serviceName)
    ensures Encode([point] + tail) == EncodeScalar(point) + Encode(tail)
  {
    hide EncodeScalar;
    assert ([point] + tail)[1..] == tail;
  }

  lemma {:induction false} ValidIsEncoding(s: seq<byte>, serviceName: bool) returns (points: seq<int>)
    requires ValidFrom(s, serviceName)
    ensures AllAllowed(points, serviceName) && s == Encode(points)
    decreases |s|
  {
    if s == [] {
      points := [];
    } else {
      var (point, length) := First(s, serviceName);
      FirstIsEncoding(s, serviceName);
      var tail := ValidIsEncoding(s[length..], serviceName);
      points := [point] + tail;
      hide First, EncodeScalar, Encode, AllAllowed, ValidFrom;
      EncodeGrows(point, tail, serviceName);
      assert s == s[..length] + s[length..];
    }
  }

  lemma {:induction false} EncodingIsValid(points: seq<int>, serviceName: bool)
    requires AllAllowed(points, serviceName)
    ensures ValidFrom(Encode(points), serviceName)
  {
    if points != [] {
      assert Allowed(points[0], serviceName);
      var head, tail := EncodeScalar(points[0]), Encode(points[1..]);
      EncodingIsFirst(points[0], tail, serviceName);
      EncodingIsValid(points[1..], serviceName);
      assert (head + tail)[|head|..] == tail;
    }
  }

  /** The text a validator accepts: an encoding of allowed scalar values, nonempty for a service name. */
  ghost predicate IsText(s: seq<byte>, serviceName: bool) {
    (serviceName ==> s != []) && exists points :: AllAllowed(points, serviceName) && s == Encode(points)
  }

  /** An accepted text has no control bytes. */
  lemma {:induction false} EncodedIsPrintable(points: seq<int>, serviceName: bool)
    requires AllAllowed(points, serviceName)
    ensures forall b | b in Encode(points) :: b >= 0x20
  {
    if points != [] {
      assert Allowed(points[0], serviceName);
      EncodedIsPrintable(points[1..], serviceName);
    }
  }

  lemma TextIsPrintable(s: seq<byte>, serviceName: bool)
    requires IsText(s, serviceName)
    ensures forall b | b in s :: b >= 0x20
  {
    var points :| AllAllowed(points, serviceName) && s == Encode(points);
    EncodedIsPrintable(points, serviceName);
  }

  lemma {:induction false} AsciiEncodesItself(s: seq<byte>)
    requires forall b | b in s :: 0x20 <= b < 0x7f
    ensures AllAllowed(s, false) && Encode(s) == s
  {
    if s != [] {
      assert forall b | b in s[1..] :: b in s;
      AsciiEncodesItself(s[1..]);
      assert s[0] in s && s == [s[0]] + s[1..];
    }
  }

  /** Printable ASCII is a text. */
  lemma AsciiIsText(s: seq<byte>)
    requires forall b | b in s :: 0x20 <= b < 0x7f
    ensures IsText(s, false)
  {
    AsciiEncodesItself(s);
  }

  lemma ValidExactly(s: seq<byte>, serviceName: bool)
    ensures IsText(s, serviceName) <==> (serviceName ==> s != []) && ValidFrom(s, serviceName)
  {
    if ValidFrom(s, serviceName) {
      var points := ValidIsEncoding(s, serviceName);
    }
    forall points | AllAllowed(points, serviceName) && s == Encode(points) ensures ValidFrom(s, serviceName) {
      EncodingIsValid(points, serviceName);
    }
  }

  /** The inner loop: folds the continuation bytes after index `i` into `lead`. */
  method ReadContinuations(value: seq<byte>, i: nat, continuation: nat, lead: int) returns (ok: bool, point: int)
    requires i + continuation < |value|
    ensures ok <==> AllContinuations(value[i + 1..i + continuation + 1])
    ensures ok ==> point == Accumulate(lead, value[i + 1..i + continuation + 1])
  {
    point := lead;
    var j := 0;
    while j < continuation
      invariant 0 <= j <= continuation
      invariant AllContinuations(value[i + 1..i + j + 1])
      invariant point == Accumulate(lead, value[i + 1..i + j + 1])
    {
      var next := value[i + j + 1];
      if !(0x80 <= next < 0xc0) {
        assert value[i + 1..i + continuation + 1][j] == next;
        return false, point;
      }
      assert value[i + 1..i + j + 2] == value[i + 1..i + j + 1] + [next];
      assert value[i + 1..i + j + 2][..j] == value[i + 1..i + j + 1];
      point := point * 64 + next % 64;
      j := j + 1;
    }
    return true, point;
  }

  /** What a lead byte announces. */
  method Lead(first: byte) returns (ok: bool, continuation: nat, point: int)
    ensures ok <==> Continuations(first) >= 0
    ensures ok ==> continuation == Continuations(first) && point == LeadBits(first)
  {
    if first <= 0x7f {
      return true, 0, first;
    } else if first >= 0xc2 && first <= 0xdf {
      return true, 1, first % 32;
    } else if first >= 0xe0 && first <= 0xef {
      return true, 2, first % 16;
    } else if first >= 0xf0 && first <= 0xf4 {
      return true, 3, first % 8;
    } else {
      return false, 0, 0;
    }
  }

  /** The length of the sequence at `i`, or zero if there is none that is allowed. */
  method SequenceAt(value: seq<byte>, i: nat, serviceName: bool) returns (length: nat)
    requires i < |value|
    ensures var (_, n) := First(value[i..], serviceName); length == n && i + length <= |value|
  {
    var first := value[i];
    var leads, continuation, lead := Lead(first);
    ghost var s := value[i..];
    assert s[0] == first;
    hide Continuations, LeadBits;
    if !leads { return 0; }
    if i + continuation >= |value| { return 0; }
    assert s[1..continuation + 1] == value[i + 1..i + continuation + 1];
    var ok, point := ReadContinuations(value, i, continuation, lead);
    if !ok { return 0; }
    hide AllContinuations, Accumulate;
    if (continuation == 2 && point < 0x800) || (continuation == 3 && point < 0x10000) || point > 0x10ffff
       || (point >= 0xd800 && point <= 0xdfff) {
      return 0;
    }
    if point == 0 || point < 0x20 || (serviceName && (point == SLASH || point == BACKSLASH)) { return 0; }
    return continuation + 1;
  }

  /** Accepts exactly the UTF-8 texts the protocol allows; every index is in bounds. */
  method IsValidUtf8(value: seq<byte>, serviceName: bool) returns (ok: bool)
    ensures ok <==> IsText(value, serviceName)
  {
    ValidExactly(value, serviceName);
    hide First, IsText;
    if |value| == 0 { return !serviceName; }
    var i := 0;
    while i < |value|
      invariant 0 <= i <= |value|
      invariant ValidFrom(value, serviceName) <==> ValidFrom(value[i..], serviceName)
    {
      var length := SequenceAt(value, i, serviceName);
      if length == 0 { return false; }
      assert value[i..][length..] == value[i + length..];
      i := i + length;
    }
    return true;
  }
}
