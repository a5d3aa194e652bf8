/**
 * Two walks over an SMBIOS structure table (DMTF DSP0134, sections 6.1.2 and 6.1.3): the first decides whether a start
 * is good, the second reads on the strength of that decision.
 */
module Smbios {
  import opened Types
  import opened Utf8

  type Table = seq<byte>

  const END_OF_TABLE := 127
  const MEMORY_DEVICE := 17

  // ----- What a table is -----

  /** A structure whose header and formatted part lie within the table. */
  predicate Fits(table: Table, at: nat) {
    at + 4 <= |table| && table[at + 1] >= 4 && at + table[at + 1] <= |table|
  }

  predicate DoubleNul(table: Table, k: nat) {
    k + 1 < |table| && table[k] == 0 && table[k + 1] == 0
  }

  /** The string area that starts at `from` ends with the double NUL at `k`, the first one. */
  predicate StringsEndAt(table: Table, from: nat, k: nat) {
    from <= k && DoubleNul(table, k) && forall j | from <= j < k :: !DoubleNul(table, j)
  }

  /** The structure at `next` follows the one at `at`. */
  predicate Follows(table: Table, at: nat, next: nat) {
    Fits(table, at) && next >= 2 && StringsEndAt(table, at + table[at + 1], next - 2)
  }

  /** `path` lists consecutive structures, all within the table, the last and only the last of them the end marker. */
  predicate IsChain(table: Table, path: seq<nat>) {
    && path != []
    && (forall i | 0 <= i < |path| :: Fits(table, path[i]) && (table[path[i]] == END_OF_TABLE <==> i == |path| - 1))
    && (forall i, j | 0 <= i < |path| && 0 <= j < |path| && j == i + 1 :: Follows(table, path[i], path[j]))
  }

  ghost predicate Clean(table: Table, start: nat) {
    exists path :: IsChain(table, path) && path[0] == start
  }

  lemma {:induction false} OneFollower(table: Table, at: nat, a: nat, b: nat)
    requires Follows(table, at, a) && Follows(table, at, b)
    ensures a == b
  {
    assert DoubleNul(table, a - 2) && DoubleNul(table, b - 2);
  }

  /** From one start there is only one chain. */
  lemma {:induction false} OneChain(table: Table, p: seq<nat>, q: seq<nat>)
    requires IsChain(table, p) && IsChain(table, q) && p[0] == q[0]
    ensures p == q
    decreases |p|
  {
    if |p| > 1 && |q| > 1 {
      OneFollower(table, p[0], p[1], q[1]);
      TailIsChain(table, p);
      TailIsChain(table, q);
      OneChain(table, p[1..], q[1..]);
      assert p == [p[0]] + p[1..] && q == [q[0]] + q[1..];
    } else {
      assert table[p[0]] == END_OF_TABLE <==> 0 == |p| - 1;
      assert table[q[0]] == END_OF_TABLE <==> 0 == |q| - 1;
    }
  }

  lemma TailIsChain(table: Table, p: seq<nat>)
    requires IsChain(table, p) && |p| > 1
    ensures IsChain(table, p[1..])
  {
    var t := p[1..];
    forall i, j | 0 <= i < |t| && 0 <= j < |t| && j == i + 1 ensures Follows(table, t[i], t[j]) {
      assert t[i] == p[i + 1] && t[j] == p[j + 1];
    }
  }

  lemma ChainGrows(table: Table, at: nat, p: seq<nat>)
    requires IsChain(table, p) && Fits(table, at) && table[at] != END_OF_TABLE && Follows(table, at, p[0])
    ensures IsChain(table, [at] + p)
  {
    var q := [at] + p;
    forall i, j | 0 <= i < |q| && 0 <= j < |q| && j == i + 1 ensures Follows(table, q[i], q[j]) {
      if i > 0 { assert q[i] == p[i - 1] && q[j] == p[j - 1]; }
    }
  }

  // ----- The first walk -----

  /** The inner loop: the position after the string area, and whether its end was found. */
  method SkipStrings(table: Table, from: nat) returns (next: nat)
    requires from <= |table|
    ensures next >= from + 2
    ensures StringsEndAt(table, from, next - 2) || (next > |table| && forall k | from <= k :: !DoubleNul(table, k))
  {
    var strings := from;
    while strings + 1 < |table| && !(table[strings] == 0 && table[strings + 1] == 0)
      invariant from <= strings && (strings <= |table| - 1 || strings == from)
      invariant forall j | from <= j < strings :: !DoubleNul(table, j)
    {
      strings := strings + 1;
    }
    next := strings + 2;
  }

  /** Without a follower, or with one from which no chain leads on, no chain starts here. */
  lemma NoChain(table: Table, at: nat, next: nat)
    requires Fits(table, at) && table[at] != END_OF_TABLE && !Clean(table, next) && next >= 2
    requires StringsEndAt(table, at + table[at + 1], next - 2)
             || forall k | at + table[at + 1] <= k :: !DoubleNul(table, k)
    ensures !Clean(table, at)
  {
    forall path | IsChain(table, path) && path[0] == at ensures false {
      assert |path| > 1 by { assert table[path[0]] == END_OF_TABLE <==> 0 == |path| - 1; }
      assert Follows(table, path[0], path[1]);
      if StringsEndAt(table, at + table[at + 1], next - 2) {
        OneFollower(table, at, path[1], next);
      }
      TailIsChain(table, path);
    }
  }

  lemma CleanBack(table: Table, at: nat, next: nat)
    requires Clean(table, next) && Follows(table, at, next) && table[at] != END_OF_TABLE
    ensures Clean(table, at)
  {
    var path :| IsChain(table, path) && path[0] == next;
    ChainGrows(table, at, path);
    assert ([at] + path)[0] == at;
  }

  /** Accepts exactly the starts from which a chain of structures leads to the end marker. */
  method WalkIsClean(table: Table, start: nat) returns (clean: bool)
    ensures clean <==> Clean(table, start)
  {
    var cursor := start;
    while cursor + 4 <= |table|
      invariant Clean(table, cursor) <==> Clean(table, start)
      decreases |table| - cursor
    {
      var kind, length := table[cursor], table[cursor + 1];
      if length < 4 || cursor + length > |table| {
        assert !Clean(table, cursor);
        return false;
      }
      if kind == END_OF_TABLE {
        assert IsChain(table, [cursor]);
        return true;
      }
      var next := SkipStrings(table, cursor + length);
      if Clean(table, next) {
        CleanStarts(table, next);
        CleanBack(table, cursor, next);
      } else {
        NoChain(table, cursor, next);
      }
      cursor := next;
    }
    return false;
  }

  lemma CleanStarts(table: Table, at: nat)
    requires Clean(table, at)
    ensures Fits(table, at)
  {
  }

  // ----- The start -----

  predicate LooksLikeBios(table: Table, i: nat) {
    i + 4 <= |table| && table[i] == 0 && 0x10 <= table[i + 1] <= 0x1a
  }

  /** Good starts are looked for in the first 256 bytes only. */
  ghost predicate Candidate(table: Table, i: nat, bios: bool) {
    i < |table| && i < 256 && (bios ==> LooksLikeBios(table, i)) && Clean(table, i)
  }

  /** The least start that looks like a BIOS structure; failing that, the least clean start; failing that, none. */
  method FindStructureTableStart(table: Table) returns (start: Option<nat>)
    ensures start.None? <==> forall i: nat :: !Candidate(table, i, false)
    ensures start.Some? ==>
              var bios := exists i: nat :: Candidate(table, i, true);
              Candidate(table, start.value, bios) && forall i: nat | i < start.value :: !Candidate(table, i, bios)
  {
    var i := 0;
    while i < |table| && i < 256
      invariant forall k: nat | k < i :: !Candidate(table, k, true)
    {
      if LooksLikeBios(table, i) {
        var clean := WalkIsClean(table, i);
        if clean {
          assert Candidate(table, i, true) && Candidate(table, i, false);
          return Some(i);
        }
      }
      i := i + 1;
    }
    assert forall k: nat :: !Candidate(table, k, true);
    i := 0;
    while i < |table| && i < 256
      invariant forall k: nat | k < i :: !Candidate(table, k, false)
    {
      var clean := WalkIsClean(table, i);
      if clean {
        assert Candidate(table, i, false);
        return Some(i);
      }
      i := i + 1;
    }
    return None;
  }

  // ----- The second walk -----

  function ReadU16(table: Table, at: nat): nat
    requires at + 1 < |table|
  {
    table[at] as int + 256 * table[at + 1] as int
  }

  predicate IsMemoryDevice(table: Table, at: nat) {
    Fits(table, at) && table[at] == MEMORY_DEVICE && table[at + 1] >= 0x16
  }

  /** Every read of a memory device in a chain is in bounds: another structure follows it. */
  lemma DeviceReadsFit(table: Table, path: seq<nat>, i: nat)
    requires IsChain(table, path) && i < |path| && IsMemoryDevice(table, path[i])
    ensures path[i] + 0x16 < |table|
  {
    assert i < |path| - 1;
    assert Follows(table, path[i], path[i + 1]);
  }

  /** Outside a chain a fitting memory device can end with the table, one byte short of the speed that is read. */
  lemma FittingIsNotEnough()
    ensures exists table: Table :: IsMemoryDevice(table, 0) && |table| == 0x16
  {
    var table: Table := seq(0x16, i => if i == 0 then MEMORY_DEVICE else 0x16);
    assert IsMemoryDevice(table, 0);
  }

  datatype Summary = Summary(totalMb: nat, maxSpeed: nat, typeCode: nat, found: bool)

  function Megabytes(raw: nat): nat {
    if raw == 0 || raw == 0xffff then 0
    else if raw >= 0x8000 then (raw - 0x8000) * 1024
    else raw
  }

  /** What the memory devices among the structures of a chain add up to. */
  function SummaryOf(table: Table, path: seq<nat>): Summary
    requires forall i | 0 <= i < |path| :: IsMemoryDevice(table, path[i]) ==> path[i] + 0x16 < |table|
  {
    if path == [] then Summary(0, 0, 0, false)
    else
      var n := |path| - 1;
      var before, at := SummaryOf(table, path[..n]), path[n];
      if !IsMemoryDevice(table, at) then before
      else
        var speed := ReadU16(table, at + 0x15);
        Summary(before.totalMb + Megabytes(ReadU16(table, at + 0x0c)),
                if before.maxSpeed < speed then speed else before.maxSpeed,
                if table[at + 0x12] != 0 then table[at + 0x12] else before.typeCode, true)
  }

  lemma ChainReadsFit(table: Table, path: seq<nat>)
    requires IsChain(table, path)
    ensures forall i | 0 <= i < |path| :: IsMemoryDevice(table, path[i]) ==> path[i] + 0x16 < |table|
  {
    forall i | 0 <= i < |path| && IsMemoryDevice(table, path[i]) ensures path[i] + 0x16 < |table| {
      DeviceReadsFit(table, path, i);
    }
  }

  /** `start` is the one that the search settles on. */
  ghost predicate IsBestStart(table: Table, start: nat) {
    var bios := exists i: nat :: Candidate(table, i, true);
    Candidate(table, start, bios) && forall i: nat | i < start :: !Candidate(table, i, bios)
  }

  /** The structures of `path` are those from the best start to the end marker, and add up to `summary`. */
  ghost predicate Summarizes(table: Table, path: seq<nat>, summary: Summary) {
    && IsChain(table, path) && IsBestStart(table, path[0])
    && (forall i | 0 <= i < |path| :: IsMemoryDevice(table, path[i]) ==> path[i] + 0x16 < |table|)
    && summary == SummaryOf(table, path)
  }

  // ----- The text -----

  /** Names of memory types by code (DMTF DSP0134, section 7.18.2). */
  function TypeName(code: nat): string {
    match code
    case 0x15 => "DDR"
    case 0x16 => "DDR2"
    case 0x17 => "DDR2 FB-DIMM"
    case 0x18 => "DDR3"
    case 0x19 => "DDR4"
    case 0x1a => "DDR5"
    case 0x1b => "LPDDR"
    case 0x1c => "LPDDR2"
    case 0x1d => "LPDDR3"
    case 0x1e => "LPDDR4"
    case 0x1f => "LPDDR5"
    case 0x20 => "LPDDR5X"
    case 0x22 => "DDR4 ECC"
    case 0x23 => "LPDDR4X"
    case 0x24 => "LPDDR5X"
    case 0x25 => "DDR5 ECC"
    case _ => ""
  }

  /** Some firmware reports DDR5 modules as DDR4 with error correction; their speed tells. */
  function ResolvedType(code: nat, speed: nat): string {
    if (code == 0x22 || code == 0x25) && speed >= 4800 then "DDR5" else TypeName(code)
  }

  /** How numbers are printed: a speed in full, a capacity in gigabytes with one decimal. */
  datatype Printing = Printing(speed: nat -> string, gigabytes: nat -> string)

  /** One part more, after a dot between two blanks. */
  function Joined(text: string, part: string): string {
    if text == "" then part else text + [' ', 0xc2 as char, 0xb7 as char, ' '] + part
  }

  function Label(s: Summary, p: Printing): string {
    var name := ResolvedType(s.typeCode, s.maxSpeed);
    var speed := if s.maxSpeed == 0 then name else Joined(name, p.speed(s.maxSpeed) + " MT/s");
    if s.totalMb == 0 then speed else Joined(speed, p.gigabytes(s.totalMb) + " GB")
  }

  /** The text is empty exactly when nothing is known: no named type, no speed, no capacity. */
  lemma LabelIsEmpty(s: Summary, p: Printing)
    ensures Label(s, p) == "" <==> s.maxSpeed == 0 && s.totalMb == 0 && TypeName(s.typeCode) == ""
  {
    hide TypeName;
  }

  /** The capacity of one device is below 2 to the 25th megabytes. */
  lemma {:induction false} CapacityIsBounded(table: Table, path: seq<nat>)
    requires forall i | 0 <= i < |path| :: IsMemoryDevice(table, path[i]) ==> path[i] + 0x16 < |table|
    ensures SummaryOf(table, path).totalMb <= 0x200_0000 * |path|
  {
    if path != [] {
      var n := |path| - 1;
      CapacityIsBounded(table, path[..n]);
      hide SummaryOf;
      SummaryStep(table, path);
      assert Megabytes(if IsMemoryDevice(table, path[n]) then ReadU16(table, path[n] + 0x0c) else 0) <= 0x200_0000;
    }
  }

  lemma SummaryStep(table: Table, path: seq<nat>)
    requires path != []
    requires forall i | 0 <= i < |path| :: IsMemoryDevice(table, path[i]) ==> path[i] + 0x16 < |table|
    ensures SummaryOf(table, path).totalMb
            == var n := |path| - 1;
               SummaryOf(table, path[..n]).totalMb
               + Megabytes(if IsMemoryDevice(table, path[n]) then ReadU16(table, path[n] + 0x0c) else 0)
  {
  }

  lemma {:induction false} ChainIsShort(table: Table, path: seq<nat>)
    requires IsChain(table, path)
    ensures path[0] + |path| <= |table|
    decreases |path|
  {
    if |path| > 1 {
      TailIsChain(table, path);
      ChainIsShort(table, path[1..]);
      assert Follows(table, path[0], path[1]);
    }
  }

  /** The sum of capacities never wraps around in 64 bits: a table would need more than 2 to the 38th bytes for that. */
  lemma CapacityFits(table: Table, path: seq<nat>, summary: Summary)
    requires Summarizes(table, path, summary) && |table| <= 0x40_0000_0000
    ensures summary.totalMb < 0x1_0000_0000_0000_0000
  {
    ChainIsShort(table, path);
    CapacityIsBounded(table, path);
  }

  /**
   * Never reads past the table, visits exactly the structures of the chain that the first walk accepted, sums up their
   * memory devices and prints what is known of them; reports nothing only when there is no start, no memory device, or
   * nothing known about any.
   */
  method SummarizeMemory(table: Table, p: Printing) returns (model: string, ok: bool)
    ensures ok ==>
              model != "" && exists path, summary ::
                Summarizes(table, path, summary) && summary.found && model == Label(summary, p)
    ensures !ok ==>
              (forall i: nat :: !Candidate(table, i, false))
              || exists path, summary ::
                   && Summarizes(table, path, summary)
                   && ((forall i | 0 <= i < |path| :: !IsMemoryDevice(table, path[i])) || Label(summary, p) == "")
  {
    model, ok := "", false;
    var start := FindStructureTableStart(table);
    if start.None? {
      return;
    }
    assert IsBestStart(table, start.value);
    ghost var path :| IsChain(table, path) && path[0] == start.value;
    ChainReadsFit(table, path);
    var total := Walk(table, start.value, path);
    assert Summarizes(table, path, total);
    hide Label, Summarizes, IsChain;
    if !total.found {
      NothingFound(table, path);
      return;
    }
    model := Label(total, p);
    ok := model != "";
  }

  lemma {:induction false} NothingFound(table: Table, path: seq<nat>)
    requires forall i | 0 <= i < |path| :: IsMemoryDevice(table, path[i]) ==> path[i] + 0x16 < |table|
    requires !SummaryOf(table, path).found
    ensures forall i | 0 <= i < |path| :: !IsMemoryDevice(table, path[i])
  {
    if path != [] {
      NothingFound(table, path[..|path| - 1]);
    }
  }

  /** The loop of the second walk, along the chain. */
  method Walk(table: Table, start: nat, ghost path: seq<nat>) returns (total: Summary)
    requires IsChain(table, path) && path[0] == start
    requires forall i | 0 <= i < |path| :: IsMemoryDevice(table, path[i]) ==> path[i] + 0x16 < |table|
    ensures total == SummaryOf(table, path)
  {
    total := Summary(0, 0, 0, false);
    var cursor := start;
    ghost var i := 0;
    while cursor + 4 <= |table|
      invariant i < |path| && cursor == path[i] && total == SummaryOf(table, path[..i])
      decreases |table| - cursor
    {
      var kind, length := table[cursor], table[cursor + 1];
      assert Fits(table, path[i]);
      if length < 4 || cursor + length > |table| {
        break;
      }
      assert path[..i + 1][..i] == path[..i];
      if kind == END_OF_TABLE {
        assert i == |path| - 1 && path[..i + 1] == path;
        break;
      }
      if kind == MEMORY_DEVICE && length >= 0x16 {
        var raw, speed := ReadU16(table, cursor + 0x0c), ReadU16(table, cursor + 0x15);
        total := Summary(
          total.totalMb + Megabytes(raw), if total.maxSpeed < speed then speed else total.maxSpeed,
          if table[cursor + 0x12] != 0 then table[cursor + 0x12] else total.typeCode, true);
      }
      assert i + 1 < |path| && Follows(table, path[i], path[i + 1]);
      var next := SkipStrings(table, cursor + length);
      OneFollower(table, cursor, next, path[i + 1]);
      cursor, i := next, i + 1;
    }
  }
}
