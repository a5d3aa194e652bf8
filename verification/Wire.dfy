/** The binary codec between WorkBoost and its elevated helper. */
module Wire {
  import opened Types
  import opened Utf8

  const MAGIC: u32 := 0x31504257
  const VERSION: u16 := 1
  const REQUEST_KIND: u16 := 1
  const RESPONSE_KIND: u16 := 2
  const HEADER_BYTES := 12
  const NONCE_BYTES := 32
  const MAXIMUM_MESSAGE_BYTES := 2048

  // Command and status are 16-bit enumerations: any value can be cast into one.
  const STOP_SERVICE_TEMPORARY: u16 := 1
  const START_SERVICE_RESTORE: u16 := 2
  const SUCCEEDED: u16 := 1
  const REJECTED: u16 := 2
  const FAILED: u16 := 3
  const UNCERTAIN: u16 := 4

  type Nonce = s: seq<byte> | |s| == NONCE_BYTES witness seq(NONCE_BYTES, _ => 0)

  datatype Request = Request(
    requestId: u64, command: u16, timeoutMs: u32, nonce: Nonce, serviceName: seq<byte>, identityToken: seq<byte>)

  datatype Response = Response(
    requestId: u64, status: u16, stateBefore: ServiceState, stateAfter: ServiceState, errorCode: u32,
    nonce: Nonce, message: seq<byte>)

  // ----- Field predicates -----

  predicate IsNoncePresent(nonce: Nonce) { exists b | b in nonce :: b != 0 }

  predicate IsIdentityToken(token: seq<byte>) {
    |token| == 16 && forall b | b in token :: 0x30 <= b <= 0x39 || 0x61 <= b <= 0x66
  }

  predicate IsCommand(command: u16) { command == STOP_SERVICE_TEMPORARY || command == START_SERVICE_RESTORE }

  predicate IsStatus(status: u16) { status in {SUCCEEDED, REJECTED, FAILED, UNCERTAIN} }

  function StateToWire(state: ServiceState): u16 {
    match state
    case Unknown => 0
    case Stopped => 1
    case StartPending => 2
    case StopPending => 3
    case Running => 4
    case ContinuePending => 5
    case PausePending => 6
    case Paused => 7
  }

  function StateFromWire(state: u16): Option<ServiceState> {
    match state
    case 0 => Some(ServiceState.Unknown)
    case 1 => Some(Stopped)
    case 2 => Some(StartPending)
    case 3 => Some(StopPending)
    case 4 => Some(Running)
    case 5 => Some(ContinuePending)
    case 6 => Some(PausePending)
    case 7 => Some(Paused)
    case _ => None
  }

  ghost predicate ValidRequest(r: Request) {
    && r.requestId != 0 && IsCommand(r.command) && 1000 <= r.timeoutMs <= 30000
    && IsNoncePresent(r.nonce)
    && 1 <= |r.serviceName| <= 256 && IsText(r.serviceName, true)
    && IsIdentityToken(r.identityToken)
  }

  ghost predicate ValidResponse(r: Response) {
    && r.requestId != 0 && IsStatus(r.status) && IsNoncePresent(r.nonce)
    && |r.message| <= 512 && IsText(r.message, false)
    && (r.status == SUCCEEDED ==> r.errorCode == 0)
  }

  // ----- The wire format -----

  /** `value` as `width` bytes, least significant first. */
  function Little(value: nat, width: nat): (s: seq<byte>)
    ensures |s| == width
  {
    if width == 0 then [] else [value % 256] + Little(value / 256, width - 1)
  }

  function Value(s: seq<byte>): nat {
    if s == [] then 0 else s[0] + 256 * Value(s[1..])
  }

  function Power256(n: nat): nat {
    if n == 0 then 1 else 256 * Power256(n - 1)
  }

  function Text(s: seq<byte>): seq<byte> { Little(|s|, 2) + s }

  function Frame(kind: u16, payload: seq<byte>): seq<byte> {
    Little(MAGIC, 4) + Little(VERSION, 2) + Little(kind, 2) + Little(|payload|, 4) + payload
  }

  function RequestPayload(r: Request): seq<byte> {
    Little(r.requestId, 8) + (Little(r.command, 2) + (Little(0, 2) + (Little(r.timeoutMs, 4)
      + (r.nonce + (Text(r.serviceName) + (Text(r.identityToken) + []))))))
  }

  function ResponsePayload(r: Response): seq<byte> {
    Little(r.requestId, 8) + (Little(r.status, 2) + (Little(StateToWire(r.stateBefore), 2)
      + (Little(StateToWire(r.stateAfter), 2) + (Little(0, 2) + (Little(r.errorCode, 4)
      + (r.nonce + (Text(r.message) + [])))))))
  }

  function RequestBytes(r: Request): seq<byte> { Frame(REQUEST_KIND, RequestPayload(r)) }
  function ResponseBytes(r: Response): seq<byte> { Frame(RESPONSE_KIND, ResponsePayload(r)) }

  // ----- Little-endian numbers -----

  lemma {:induction false} LittleValue(value: nat, width: nat)
    requires value < Power256(width)
    ensures Value(Little(value, width)) == value
  {
    if width > 0 {
      LittleValue(value / 256, width - 1);
      assert Little(value, width)[1..] == Little(value / 256, width - 1);
    }
  }

  lemma {:induction false} ValueLittle(s: seq<byte>)
    ensures Value(s) < Power256(|s|) && Little(Value(s), |s|) == s
  {
    if s != [] {
      ValueLittle(s[1..]);
      assert Value(s) / 256 == Value(s[1..]) && Value(s) % 256 == s[0];
    }
  }

  lemma Powers()
    ensures Power256(2) == 0x1_0000 && Power256(4) == 0x1_0000_0000 && Power256(8) == 0x1_0000_0000_0000_0000
  {
    assert Power256(1) == 256;
    assert Power256(3) == 0x100_0000;
    assert Power256(5) == 0x100_0000_0000;
    assert Power256(6) == 0x1_0000_0000_0000;
    assert Power256(7) == 0x100_0000_0000_0000;
  }

  // ----- Reading a field off the front -----

  function TakeNumber(s: seq<byte>, width: nat): Option<(nat, seq<byte>)> {
    if |s| < width then None else Some((Value(s[..width]), s[width..]))
  }

  function TakeNonce(s: seq<byte>): Option<(Nonce, seq<byte>)> {
    if |s| < NONCE_BYTES then None else Some((s[..NONCE_BYTES], s[NONCE_BYTES..]))
  }

  function TakeText(s: seq<byte>): Option<(seq<byte>, seq<byte>)> {
    var (size, rest) :- TakeNumber(s, 2);
    if |rest| < size then None else Some((rest[..size], rest[size..]))
  }

  lemma NumberReads(value: nat, width: nat, rest: seq<byte>)
    requires value < Power256(width)
    ensures TakeNumber(Little(value, width) + rest, width) == Some((value, rest))
  {
    LittleValue(value, width);
    assert (Little(value, width) + rest)[..width] == Little(value, width);
    assert (Little(value, width) + rest)[width..] == rest;
  }

  lemma NumberWasWritten(s: seq<byte>, width: nat)
    requires TakeNumber(s, width).Some?
    ensures var (value, rest) := TakeNumber(s, width).value;
            value < Power256(width) && s == Little(value, width) + rest
  {
    ValueLittle(s[..width]);
    assert s == s[..width] + s[width..];
  }

  lemma NonceReads(nonce: Nonce, rest: seq<byte>)
    ensures TakeNonce(nonce + rest) == Some((nonce, rest))
  {
    assert (nonce + rest)[..NONCE_BYTES] == nonce;
    assert (nonce + rest)[NONCE_BYTES..] == rest;
  }

  lemma NonceWasWritten(s: seq<byte>)
    requires TakeNonce(s).Some?
    ensures s == TakeNonce(s).value.0 + TakeNonce(s).value.1
  {
  }

  lemma TextReads(text: seq<byte>, rest: seq<byte>)
    requires |text| < 0x1_0000
    ensures TakeText(Text(text) + rest) == Some((text, rest))
  {
    Powers();
    NumberReads(|text|, 2, text + rest);
    assert Text(text) + rest == Little(|text|, 2) + (text + rest);
    assert (text + rest)[..|text|] == text && (text + rest)[|text|..] == rest;
  }

  lemma TextWasWritten(s: seq<byte>)
    requires TakeText(s).Some?
    ensures s == Text(TakeText(s).value.0) + TakeText(s).value.1
  {
    NumberWasWritten(s, 2);
    var (size, rest) := TakeNumber(s, 2).value;
    assert rest == rest[..size] + rest[size..];
  }

  // ----- Decoding -----

  /** The payload of a well-framed message of the expected kind. */
  function Unframe(bytes: seq<byte>, kind: u16): Option<seq<byte>> {
    if !FitsMessage(bytes) then None
    else
      var (magic, s1) :- TakeNumber(bytes, 4);
      var (version, s2) :- TakeNumber(s1, 2);
      var (found, s3) :- TakeNumber(s2, 2);
      var (size, payload) :- TakeNumber(s3, 4);
      if magic == MAGIC && version == VERSION && found == kind && size == |bytes| - HEADER_BYTES
      then Some(payload) else None
  }

  function ParseRequestPayload(s: seq<byte>): Option<Request> {
    var (id, s1) :- TakeNumber(s, 8);
    var (command, s2) :- TakeNumber(s1, 2);
    var (reserved, s3) :- TakeNumber(s2, 2);
    var (timeout, s4) :- TakeNumber(s3, 4);
    var (nonce, s5) :- TakeNonce(s4);
    var (name, s6) :- TakeText(s5);
    var (token, s7) :- TakeText(s6);
    if s7 == [] && reserved == 0 && id < 0x1_0000_0000_0000_0000 && command < 0x1_0000 && timeout < 0x1_0000_0000
    then Some(Request(id, command, timeout, nonce, name, token)) else None
  }

  function ParseResponsePayload(s: seq<byte>): Option<Response> {
    var (id, s1) :- TakeNumber(s, 8);
    var (status, s2) :- TakeNumber(s1, 2);
    var (before, s3) :- TakeNumber(s2, 2);
    var (after, s4) :- TakeNumber(s3, 2);
    var (reserved, s5) :- TakeNumber(s4, 2);
    var (error, s6) :- TakeNumber(s5, 4);
    var (nonce, s7) :- TakeNonce(s6);
    var (message, s8) :- TakeText(s7);
    if s8 == [] && reserved == 0 && id < 0x1_0000_0000_0000_0000 && status < 0x1_0000 && before < 0x1_0000
       && after < 0x1_0000 && error < 0x1_0000_0000
    then
      var stateBefore :- StateFromWire(before);
      var stateAfter :- StateFromWire(after);
      Some(Response(id, status, stateBefore, stateAfter, error, nonce, message))
    else None
  }

  lemma FrameReads(kind: u16, payload: seq<byte>)
    requires |payload| <= MAXIMUM_MESSAGE_BYTES - HEADER_BYTES
    ensures Unframe(Frame(kind, payload), kind) == Some(payload)
  {
    hide Little, Value, Power256, TakeNumber, TakeNonce, TakeText, Text;
    Powers();
    var s3 := Little(|payload|, 4) + payload;
    var s2 := Little(kind, 2) + s3;
    var s1 := Little(VERSION, 2) + s2;
    assert Frame(kind, payload) == Little(MAGIC, 4) + s1;
    NumberReads(MAGIC, 4, s1);
    NumberReads(VERSION, 2, s2);
    NumberReads(kind, 2, s3);
    NumberReads(|payload|, 4, payload);
  }

  lemma FrameWasWritten(bytes: seq<byte>, kind: u16)
    requires Unframe(bytes, kind).Some?
    ensures bytes == Frame(kind, Unframe(bytes, kind).value)
  {
    hide Little, Value, Power256, TakeNumber, TakeNonce, TakeText, Text;
    NumberWasWritten(bytes, 4);
    var s1 := TakeNumber(bytes, 4).value.1;
    NumberWasWritten(s1, 2);
    var s2 := TakeNumber(s1, 2).value.1;
    NumberWasWritten(s2, 2);
    var s3 := TakeNumber(s2, 2).value.1;
    NumberWasWritten(s3, 4);
    var payload := TakeNumber(s3, 4).value.1;
    assert |bytes| == HEADER_BYTES + |payload|;
    assert bytes == Little(MAGIC, 4) + (Little(VERSION, 2) + (Little(kind, 2) + (Little(|payload|, 4) + payload)));
  }

  lemma RequestReads(r: Request)
    requires |r.serviceName| < 0x1_0000 && |r.identityToken| < 0x1_0000
    ensures ParseRequestPayload(RequestPayload(r)) == Some(r)
  {
    hide Little, Value, Power256, TakeNumber, TakeNonce, TakeText, Text;
    Powers();
    var s6 := Text(r.identityToken) + [];
    var s5 := Text(r.serviceName) + s6;
    var s4 := r.nonce + s5;
    var s3 := Little(r.timeoutMs, 4) + s4;
    var s2 := Little(0, 2) + s3;
    var s1 := Little(r.command, 2) + s2;
    NumberReads(r.requestId, 8, s1);
    NumberReads(r.command, 2, s2);
    NumberReads(0, 2, s3);
    NumberReads(r.timeoutMs, 4, s4);
    NonceReads(r.nonce, s5);
    TextReads(r.serviceName, s6);
    TextReads(r.identityToken, []);
  }

  lemma RequestWasWritten(s: seq<byte>)
    requires ParseRequestPayload(s).Some?
    ensures s == RequestPayload(ParseRequestPayload(s).value)
  {
    hide Little, Value, Power256, TakeNumber, TakeNonce, TakeText, Text;
    var s1 := TakeNumber(s, 8).value.1;
    var s2 := TakeNumber(s1, 2).value.1;
    var s3 := TakeNumber(s2, 2).value.1;
    var s4 := TakeNumber(s3, 4).value.1;
    var s5 := TakeNonce(s4).value.1;
    var s6 := TakeText(s5).value.1;
    NumberWasWritten(s, 8);
    NumberWasWritten(s1, 2);
    NumberWasWritten(s2, 2);
    NumberWasWritten(s3, 4);
    NonceWasWritten(s4);
    TextWasWritten(s5);
    TextWasWritten(s6);
  }

  /** The two tables of service states agree. */
  lemma StateCode(state: ServiceState, code: u16)
    ensures StateFromWire(code) == Some(state) <==> StateToWire(state) == code
  {
  }

  lemma ResponseReads(r: Response)
    requires |r.message| < 0x1_0000
    ensures ParseResponsePayload(ResponsePayload(r)) == Some(r)
  {
    hide Little, Value, Power256, TakeNumber, TakeNonce, TakeText, Text, StateFromWire, StateToWire;
    Powers();
    var s7 := Text(r.message) + [];
    var s6 := r.nonce + s7;
    var s5 := Little(r.errorCode, 4) + s6;
    var s4 := Little(0, 2) + s5;
    var s3 := Little(StateToWire(r.stateAfter), 2) + s4;
    var s2 := Little(StateToWire(r.stateBefore), 2) + s3;
    var s1 := Little(r.status, 2) + s2;
    NumberReads(r.requestId, 8, s1);
    NumberReads(r.status, 2, s2);
    NumberReads(StateToWire(r.stateBefore), 2, s3);
    NumberReads(StateToWire(r.stateAfter), 2, s4);
    NumberReads(0, 2, s5);
    NumberReads(r.errorCode, 4, s6);
    NonceReads(r.nonce, s7);
    TextReads(r.message, []);
    StateCode(r.stateBefore, StateToWire(r.stateBefore));
    StateCode(r.stateAfter, StateToWire(r.stateAfter));
  }

  lemma ResponseWasWritten(s: seq<byte>)
    requires ParseResponsePayload(s).Some?
    ensures s == ResponsePayload(ParseResponsePayload(s).value)
  {
    hide Little, Value, Power256, TakeNumber, TakeNonce, TakeText, Text, StateFromWire, StateToWire;
    var s1 := TakeNumber(s, 8).value.1;
    var s2 := TakeNumber(s1, 2).value.1;
    var s3 := TakeNumber(s2, 2).value.1;
    var s4 := TakeNumber(s3, 2).value.1;
    var s5 := TakeNumber(s4, 2).value.1;
    var s6 := TakeNumber(s5, 4).value.1;
    var s7 := TakeNonce(s6).value.1;
    NumberWasWritten(s, 8);
    NumberWasWritten(s1, 2);
    NumberWasWritten(s2, 2);
    NumberWasWritten(s3, 2);
    NumberWasWritten(s4, 2);
    NumberWasWritten(s5, 4);
    NonceWasWritten(s6);
    TextWasWritten(s7);
    var r := ParseResponsePayload(s).value;
    StateCode(r.stateBefore, TakeNumber(s2, 2).value.0);
    StateCode(r.stateAfter, TakeNumber(s3, 2).value.0);
  }

  /** What DecodeRequest returns. */
  ghost function ParseRequest(bytes: seq<byte>): Option<Request> {
    var payload :- Unframe(bytes, REQUEST_KIND);
    var r :- ParseRequestPayload(payload);
    if ValidRequest(r) then Some(r) else None
  }

  ghost function ParseResponse(bytes: seq<byte>): Option<Response> {
    var payload :- Unframe(bytes, RESPONSE_KIND);
    var r :- ParseResponsePayload(payload);
    if ValidResponse(r) then Some(r) else None
  }

  /** The request codec is a bijection between valid requests and the byte strings the decoder accepts. */
  lemma RequestDecodesExactly(bytes: seq<byte>, r: Request)
    ensures ParseRequest(bytes) == Some(r) <==> ValidRequest(r) && bytes == RequestBytes(r)
  {
    if ValidRequest(r) {
      FrameReads(REQUEST_KIND, RequestPayload(r));
      RequestReads(r);
    }
    if ParseRequest(bytes) == Some(r) {
      FrameWasWritten(bytes, REQUEST_KIND);
      RequestWasWritten(Unframe(bytes, REQUEST_KIND).value);
    }
  }

  lemma ResponseDecodesExactly(bytes: seq<byte>, r: Response)
    ensures ParseResponse(bytes) == Some(r) <==> ValidResponse(r) && bytes == ResponseBytes(r)
  {
    if ValidResponse(r) {
      FrameReads(RESPONSE_KIND, ResponsePayload(r));
      ResponseReads(r);
    }
    if ParseResponse(bytes) == Some(r) {
      FrameWasWritten(bytes, RESPONSE_KIND);
      ResponseWasWritten(Unframe(bytes, RESPONSE_KIND).value);
    }
  }

  // ----- The encoder -----

  /** Append16, Append32 and Append64: the low byte first, then eight bits further right each round. */
  method Append(output: seq<byte>, value: nat, width: nat) returns (extended: seq<byte>)
    ensures extended == output + Little(value, width)
  {
    extended := output;
    var rest, i := value, 0;
    while i < width
      invariant 0 <= i <= width
      invariant extended + Little(rest, width - i) == output + Little(value, width)
    {
      assert extended + Little(rest, width - i) == extended + [rest % 256] + Little(rest / 256, width - i - 1);
      extended := extended + [rest % 256];
      rest := rest / 256;
      i := i + 1;
    }
  }

  method AppendString(output: seq<byte>, text: seq<byte>) returns (extended: seq<byte>)
    requires |text| < 0x1_0000
    ensures extended == output + Text(text)
  {
    extended := Append(output, |text|, 2);
    extended := extended + text;
  }

  method WriteHeader(kind: u16) returns (output: seq<byte>)
    ensures output == Little(MAGIC, 4) + Little(VERSION, 2) + Little(kind, 2) + Little(0, 4)
  {
    output := Append([], MAGIC, 4);
    output := Append(output, VERSION, 2);
    output := Append(output, kind, 2);
    output := Append(output, 0, 4);
  }

  method PatchSize(output: seq<byte>, size: nat) returns (patched: seq<byte>)
    requires |output| >= HEADER_BYTES
    ensures |patched| == |output| && patched[..8] == output[..8] && patched[12..] == output[12..]
    ensures patched[8..12] == Little(size, 4)
  {
    patched := output;
    ghost var field := Little(size, 4);
    var rest, i := size, 0;
    while i < 4
      invariant 0 <= i <= 4
      invariant |patched| == |output| && patched[..8] == output[..8] && patched[12..] == output[12..]
      invariant field == patched[8..8 + i] + Little(rest, 4 - i)
    {
      ghost var before := patched;
      assert Little(rest, 4 - i) == [rest % 256] + Little(rest / 256, 3 - i);
      patched := patched[8 + i := rest % 256];
      assert patched[8..8 + i + 1] == before[8..8 + i] + [rest % 256];
      rest := rest / 256;
      i := i + 1;
    }
  }

  /** Patches the payload size over the placeholder the header was written with. */
  method FinishHeader(output: seq<byte>, ghost kind: u16, ghost payload: seq<byte>) returns (finished: seq<byte>)
    requires output == Little(MAGIC, 4) + Little(VERSION, 2) + Little(kind, 2) + Little(0, 4) + payload
    ensures finished == Frame(kind, payload)
  {
    hide Little;
    var size := |output| - HEADER_BYTES;
    finished := PatchSize(output, size);
    assert finished == output[..8] + Little(size, 4) + output[12..];
  }

  method ValidateRequest(r: Request) returns (ok: bool)
    ensures ok <==> ValidRequest(r)
  {
    if r.requestId == 0 { return false; }
    if !IsCommand(r.command) { return false; }
    if r.timeoutMs < 1000 || r.timeoutMs > 30000 { return false; }
    if !IsNoncePresent(r.nonce) { return false; }
    if |r.serviceName| == 0 || |r.serviceName| > 256 { return false; }
    var text := IsValidUtf8(r.serviceName, true);
    if !text { return false; }
    return IsIdentityToken(r.identityToken);
  }

  method ValidateResponse(r: Response) returns (ok: bool)
    ensures ok <==> ValidResponse(r)
  {
    if r.requestId == 0 || !IsStatus(r.status) || !IsNoncePresent(r.nonce) || |r.message| > 512 { return false; }
    var text := IsValidUtf8(r.message, false);
    if !text { return false; }
    return !(r.status == SUCCEEDED && r.errorCode != 0);
  }

  predicate FitsMessage(bytes: seq<byte>) { HEADER_BYTES <= |bytes| <= MAXIMUM_MESSAGE_BYTES }

  /** Encoding fails on invalid requests only: the size limit at the end is never what stops it. */
  method EncodeRequest(r: Request) returns (bytes: Option<seq<byte>>)
    ensures bytes.Some? <==> ValidRequest(r)
    ensures bytes.Some? ==> bytes.value == RequestBytes(r)
  {
    hide Little, Value, Power256, IsText;
    var valid := ValidateRequest(r);
    if !valid { return None; }
    var header := WriteHeader(REQUEST_KIND);
    var output := Append(header, r.requestId, 8);
    output := Append(output, r.command, 2);
    output := Append(output, 0, 2);
    output := Append(output, r.timeoutMs, 4);
    output := output + r.nonce;
    output := AppendString(output, r.serviceName);
    output := AppendString(output, r.identityToken);
    assert output == header + RequestPayload(r);
    output := FinishHeader(output, REQUEST_KIND, RequestPayload(r));
    if !FitsMessage(output) { return None; }
    return Some(output);
  }

  method EncodeResponse(r: Response) returns (bytes: Option<seq<byte>>)
    ensures bytes.Some? <==> ValidResponse(r)
    ensures bytes.Some? ==> bytes.value == ResponseBytes(r)
  {
    hide Little, Value, Power256, IsText;
    var valid := ValidateResponse(r);
    if !valid { return None; }
    var header := WriteHeader(RESPONSE_KIND);
    var output := Append(header, r.requestId, 8);
    output := Append(output, r.status, 2);
    output := Append(output, StateToWire(r.stateBefore), 2);
    output := Append(output, StateToWire(r.stateAfter), 2);
    output := Append(output, 0, 2);
    output := Append(output, r.errorCode, 4);
    output := output + r.nonce;
    output := AppendString(output, r.message);
    assert output == header + ResponsePayload(r);
    output := FinishHeader(output, RESPONSE_KIND, ResponsePayload(r));
    if !FitsMessage(output) { return None; }
    return Some(output);
  }

  // ----- The decoder -----

  class Reader {
    const bytes: seq<byte>
    var position: nat

    ghost predicate Valid()
      reads this
    {
      position <= |bytes|
    }

    ghost function Unread(): seq<byte>
      requires Valid()
      reads this
    {
      bytes[position..]
    }

    constructor (bytes: seq<byte>)
      ensures Valid() && Unread() == bytes && this.bytes == bytes
    {
      this.bytes := bytes;
      position := 0;
    }

    /** Read16, Read32 and Read64: one more byte, eight bits further left, each round. */
    method ReadNumber(width: nat) returns (ok: bool, value: nat)
      requires Valid()
      modifies this
      ensures Valid() && ok == TakeNumber(old(Unread()), width).Some?
      ensures ok ==> (value, Unread()) == TakeNumber(old(Unread()), width).value && value < Power256(width)
    {
      value := 0;
      if width > |bytes| - position { return false, value; }
      ghost var field := Unread()[..width];
      ghost var start := position;
      var scale: nat, i := 1, 0;
      while i < width
        invariant 0 <= i <= width && position == start + i <= |bytes|
        invariant value + scale * Value(field[i..]) == Value(field)
      {
        assert field[i..][0] == bytes[position] && field[i..][1..] == field[i + 1..];
        Distribute(scale, bytes[position], Value(field[i + 1..]));
        value := value + scale * bytes[position];
        scale := scale * 256;
        position := position + 1;
        i := i + 1;
      }
      assert field[width..] == [];
      ValueLittle(field);
      return true, value;
    }

    method ReadNonce() returns (ok: bool, value: Nonce)
      requires Valid()
      modifies this
      ensures Valid() && ok == TakeNonce(old(Unread())).Some?
      ensures ok ==> (value, Unread()) == TakeNonce(old(Unread())).value
    {
      value := seq(NONCE_BYTES, _ => 0);
      if NONCE_BYTES > |bytes| - position { return false, value; }
      ghost var unread := Unread();
      value := bytes[position..position + NONCE_BYTES];
      position := position + NONCE_BYTES;
      assert value == unread[..NONCE_BYTES] && Unread() == unread[NONCE_BYTES..];
      return true, value;
    }

    method ReadString() returns (ok: bool, value: seq<byte>)
      requires Valid()
      modifies this
      ensures Valid() && ok == TakeText(old(Unread())).Some?
      ensures ok ==> (value, Unread()) == TakeText(old(Unread())).value
    {
      value := [];
      var size: nat;
      ok, size := ReadNumber(2);
      if !ok || size > |bytes| - position { return false, value; }
      ghost var unread := Unread();
      value := bytes[position..position + size];
      position := position + size;
      assert value == unread[..size] && Unread() == unread[size..];
    }
  }

  lemma Distribute(scale: nat, b: nat, rest: nat)
    ensures scale * (b + 256 * rest) == scale * b + scale * 256 * rest
  {
  }

  /** ReadHeader after CheckMessageSize. */
  method ReadHeader(reader: Reader, kind: u16) returns (ok: bool)
    requires reader.Valid() && reader.position == 0 && FitsMessage(reader.bytes)
    modifies reader
    ensures reader.Valid() && ok == Unframe(reader.bytes, kind).Some?
    ensures ok ==> reader.Unread() == Unframe(reader.bytes, kind).value
  {
    assert reader.Unread() == reader.bytes;
    var magic, version, found, size;
    ok, magic := reader.ReadNumber(4);
    if !ok { return; }
    ok, version := reader.ReadNumber(2);
    if !ok { return; }
    ok, found := reader.ReadNumber(2);
    if !ok { return; }
    ok, size := reader.ReadNumber(4);
    if !ok { return; }
    ok := magic == MAGIC && version == VERSION && found == kind && size == |reader.bytes| - HEADER_BYTES;
  }

  method ReadRequestPayload(reader: Reader) returns (r: Option<Request>)
    requires reader.Valid()
    modifies reader
    ensures r == ParseRequestPayload(old(reader.Unread()))
  {
    hide TakeNumber, TakeNonce, TakeText;
    Powers();
    var ok, id, command, reserved, timeout, nonce, name, token;
    ok, id := reader.ReadNumber(8);
    if !ok { return None; }
    ok, command := reader.ReadNumber(2);
    if !ok { return None; }
    ok, reserved := reader.ReadNumber(2);
    if !ok { return None; }
    ok, timeout := reader.ReadNumber(4);
    if !ok { return None; }
    ok, nonce := reader.ReadNonce();
    if !ok { return None; }
    ok, name := reader.ReadString();
    if !ok { return None; }
    ok, token := reader.ReadString();
    if !ok || reader.position != |reader.bytes| || reserved != 0 { return None; }
    return Some(Request(id, command, timeout, nonce, name, token));
  }

  method ReadResponsePayload(reader: Reader) returns (r: Option<Response>)
    requires reader.Valid()
    modifies reader
    ensures r == ParseResponsePayload(old(reader.Unread()))
  {
    hide TakeNumber, TakeNonce, TakeText;
    Powers();
    var ok, id, status, before, after, reserved, error, nonce, message;
    ok, id := reader.ReadNumber(8);
    if !ok { return None; }
    ok, status := reader.ReadNumber(2);
    if !ok { return None; }
    ok, before := reader.ReadNumber(2);
    if !ok { return None; }
    ok, after := reader.ReadNumber(2);
    if !ok { return None; }
    ok, reserved := reader.ReadNumber(2);
    if !ok { return None; }
    ok, error := reader.ReadNumber(4);
    if !ok { return None; }
    ok, nonce := reader.ReadNonce();
    if !ok { return None; }
    ok, message := reader.ReadString();
    if !ok || reader.position != |reader.bytes| || reserved != 0 { return None; }
    var stateBefore, stateAfter := StateFromWire(before), StateFromWire(after);
    if stateBefore.None? || stateAfter.None? { return None; }
    return Some(Response(id, status, stateBefore.value, stateAfter.value, error, nonce, message));
  }

  /** Decodes exactly the encodings of valid requests, each to the request it encodes. */
  method DecodeRequest(bytes: seq<byte>) returns (r: Option<Request>)
    ensures r.Some? ==> ValidRequest(r.value) && bytes == RequestBytes(r.value)
    ensures r.None? ==> forall q: Request | ValidRequest(q) :: bytes != RequestBytes(q)
  {
    ghost var parsed := ParseRequest(bytes);
    forall q: Request ensures parsed == Some(q) <==> ValidRequest(q) && bytes == RequestBytes(q) {
      RequestDecodesExactly(bytes, q);
    }
    hide ValidRequest, RequestBytes, ParseRequestPayload;
    if !FitsMessage(bytes) { return None; }
    var reader := new Reader(bytes);
    var ok := ReadHeader(reader, REQUEST_KIND);
    if !ok { return None; }
    r := ReadRequestPayload(reader);
    if r.Some? {
      ok := ValidateRequest(r.value);
      if !ok { return None; }
    }
  }

  method DecodeResponse(bytes: seq<byte>) returns (r: Option<Response>)
    ensures r.Some? ==> ValidResponse(r.value) && bytes == ResponseBytes(r.value)
    ensures r.None? ==> forall q: Response | ValidResponse(q) :: bytes != ResponseBytes(q)
  {
    ghost var parsed := ParseResponse(bytes);
    forall q: Response ensures parsed == Some(q) <==> ValidResponse(q) && bytes == ResponseBytes(q) {
      ResponseDecodesExactly(bytes, q);
    }
    hide ValidResponse, ResponseBytes, ParseResponsePayload;
    if !FitsMessage(bytes) { return None; }
    var reader := new Reader(bytes);
    var ok := ReadHeader(reader, RESPONSE_KIND);
    if !ok { return None; }
    r := ReadResponsePayload(reader);
    if r.Some? {
      ok := ValidateResponse(r.value);
      if !ok { return None; }
    }
  }
}
