/** Intel HEX record lines: their text, the bytes they spell, and what a loader writes for them. */
module HexRecords {
  import opened Bytes
  import opened Options

  const DATA: Byte := 0x00
  const EOF: Byte := 0x01
  const EXT_SEGMENT_ADDR: Byte := 0x02
  const EXT_LINEAR_ADDR: Byte := 0x04
  const BLOCK_START: Byte := 0x0A
  const BLOCK_END: Byte := 0x0B
  const PADDED_DATA: Byte := 0x0C
  const CUSTOM_DATA: Byte := 0x0D
  const OTHER_DATA: Byte := 0x0E

  /** One record: its 16-bit address, its type and its payload. */
  datatype Record = Record(address: nat, kind: Byte, data: seq<Byte>)

  // ----- hexadecimal text -----

  predicate IsHexDigit(c: char) {
    '0' <= c <= '9' || 'a' <= c <= 'f' || 'A' <= c <= 'F'
  }

  function HexValue(c: char): (v: nat)
    requires IsHexDigit(c)
    ensures v < 16
  {
    if '0' <= c <= '9' then c as int - '0' as int
    else if 'a' <= c <= 'f' then c as int - 'a' as int + 10
    else c as int - 'A' as int + 10
  }

  function HexDigit(v: nat): (c: char)
    requires v < 16
    ensures IsHexDigit(c) && HexValue(c) == v
  {
    if v < 10 then ('0' as int + v) as char else ('A' as int + v - 10) as char
  }

  /** Sixteen digits, the upper six in either case. */
  lemma HexDigits(c: char)
    requires IsHexDigit(c)
    ensures HexValue(c) == if c <= '9' then c as int - 48 else if c <= 'F' then c as int - 55 else c as int - 87
  {
  }

  predicate AllHex(s: string) {
    forall i :: 0 <= i < |s| ==> IsHexDigit(s[i])
  }

  /** int(s, 16) on a run of hex digits. */
  function ParseHex(s: string): Option<nat> {
    if s != [] && AllHex(s) then Some(HexNumber(s)) else None
  }

  function HexNumber(s: string): nat
    requires AllHex(s)
  {
    if s == [] then 0 else HexNumber(s[..|s| - 1]) * 16 + HexValue(s[|s| - 1])
  }

  /** The bytes spelled by pairs of hex digits. */
  function FromHex(s: string): (r: Option<seq<Byte>>)
    ensures r.Some? <==> |s| % 2 == 0 && AllHex(s)
    ensures r.Some? ==> |s| == 2 * |r.value|
  {
    if |s| % 2 == 0 && AllHex(s)
    then Some(seq(|s| / 2, i requires 0 <= i < |s| / 2 => 16 * HexValue(s[2 * i]) + HexValue(s[2 * i + 1])))
    else None
  }

  function ToHex(b: seq<Byte>): (s: string)
    ensures |s| == 2 * |b| && AllHex(s)
  {
    seq(2 * |b|, k requires 0 <= k < 2 * |b| => if k % 2 == 0 then HexDigit(b[k / 2] / 16) else HexDigit(b[k / 2] % 16))
  }

  lemma FromHexToHex(b: seq<Byte>)
    ensures FromHex(ToHex(b)) == Some(b)
  {
    var r := FromHex(ToHex(b)).value;
    forall i | 0 <= i < |b| ensures r[i] == b[i] {
      assert (2 * i) / 2 == i && (2 * i + 1) / 2 == i;
      assert ToHex(b)[2 * i] == HexDigit(b[i] / 16) && ToHex(b)[2 * i + 1] == HexDigit(b[i] % 16);
      assert r[i] == 16 * (b[i] / 16) + b[i] % 16;
    }
    assert r == b;
  }

  lemma FromHexPair(s: string, i: nat)
    requires FromHex(s).Some? && i < |FromHex(s).value|
    ensures ParseHex(s[2 * i..2 * i + 2]) == Some(FromHex(s).value[i])
  {
    var t := s[2 * i..2 * i + 2];
    assert t[..1] == [s[2 * i]] && t[..1][..0] == [];
    assert HexNumber(t[..1]) == HexValue(s[2 * i]);
  }

  // ----- records as text -----

  function ByteSum(b: seq<Byte>): int {
    if b == [] then 0 else ByteSum(b[..|b| - 1]) + b[|b| - 1]
  }

  function Checksum(b: seq<Byte>): Byte {
    (-ByteSum(b)) % 256
  }

  /** Length, address, type and payload, without the checksum. */
  function Body(r: Record): seq<Byte>
    requires |r.data| < 256 && r.address < 0x10000
  {
    [|r.data|, r.address / 256, r.address % 256, r.kind] + r.data
  }

  function LineWith(body: seq<Byte>, checksum: Byte): string {
    ":" + ToHex(body) + ToHex([checksum])
  }

  function Line(body: seq<Byte>): string {
    LineWith(body, Checksum(body))
  }

  /** The record a line spells, if its length byte and its checksum are right. */
  function Decode(line: string): (r: Option<Record>)
    ensures r.Some? ==> r.value.address < 0x10000 && |r.value.data| < 256
  {
    if line == [] || line[0] != ':' then None
    else
      match FromHex(line[1..])
      case None => None
      case Some(b) => DecodeBytes(b)
  }

  function DecodeBytes(b: seq<Byte>): (r: Option<Record>)
    ensures r.Some? ==> r.value.address < 0x10000 && |r.value.data| < 256
  {
    if |b| >= 5 && b[0] == |b| - 5 && ByteSum(b) % 256 == 0
    then Some(Record(Word(b[1], b[2]), b[3], b[4..|b| - 1]))
    else None
  }

  /** A big-endian pair of bytes. */
  function Word(hi: nat, lo: nat): nat {
    hi * 256 + lo
  }

  /** The source's own test: the number in columns 8 and 9 of a line that looks like a record. */
  function RecordType(line: string): Option<nat> {
    if line == [] || line[0] != ':' || |line| < 11 then None else ParseHex(line[7..9])
  }

  lemma RecordTypeOfDecoded(line: string)
    requires Decode(line).Some?
    ensures RecordType(line) == Some(Decode(line).value.kind)
  {
    FromHexPair(line[1..], 3);
    assert line[1..][6..8] == line[7..9];
  }

  lemma SumOfAppended(b: seq<Byte>, x: Byte)
    ensures ByteSum(b + [x]) == ByteSum(b) + x
  {
    assert (b + [x])[..|b|] == b;
  }

  lemma ToHexOfAppended(b: seq<Byte>, c: Byte)
    ensures ToHex(b) + ToHex([c]) == ToHex(b + [c])
  {
    var s, t := ToHex(b) + ToHex([c]), ToHex(b + [c]);
    forall k | 0 <= k < |s| ensures s[k] == t[k] {
      if k < 2 * |b| {
        assert (b + [c])[k / 2] == b[k / 2];
      } else {
        assert k / 2 == |b| && (k - 2 * |b|) % 2 == k % 2 && (k - 2 * |b|) / 2 == 0;
      }
    }
  }

  lemma DecodeOfLineWith(body: seq<Byte>, c: Byte)
    ensures Decode(LineWith(body, c)) == DecodeBytes(body + [c])
  {
    ToHexOfAppended(body, c);
    var line := LineWith(body, c);
    assert line[0] == ':' && line[1..] == ToHex(body + [c]);
    FromHexToHex(body + [c]);
  }

  /** Exactly one last byte makes the sum zero. */
  lemma ChecksumIsUnique(body: seq<Byte>, c: Byte)
    ensures ByteSum(body + [c]) % 256 == 0 <==> c == Checksum(body)
  {
    hide ByteSum;
    SumOfAppended(body, c);
    ZeroModulo256(ByteSum(body), c);
  }

  lemma ZeroModulo256(sum: int, c: int)
    requires 0 <= c < 256
    ensures (sum + c) % 256 == 0 <==> c == (-sum) % 256
  {
    var q, k := (-sum) / 256, (-sum) % 256;
    assert sum + c == 256 * (-q) + (c - k);
  }

  /** A line written from a body whose length byte is right decodes to exactly that body. */
  lemma DecodeOfLine(body: seq<Byte>)
    requires |body| >= 4 && body[0] == |body| - 4
    ensures Decode(Line(body)) == Some(Record(Word(body[1], body[2]), body[3], body[4..]))
    ensures ByteSum(body + [Checksum(body)]) % 256 == 0
  {
    var b := body + [Checksum(body)];
    ChecksumIsUnique(body, Checksum(body));
    DecodeOfLineWith(body, Checksum(body));
    assert b[4..|b| - 1] == body[4..];
  }

  function Render(r: Record): string
    requires |r.data| < 256 && r.address < 0x10000
  {
    Line(Body(r))
  }

  lemma DecodeOfRendered(r: Record)
    requires |r.data| < 256 && r.address < 0x10000
    ensures Decode(Render(r)) == Some(r) && RecordType(Render(r)) == Some(r.kind)
  {
    DecodeOfLine(Body(r));
    assert Body(r)[4..] == r.data;
    RecordTypeOfDecoded(Render(r));
  }

  /** Columns 8 and 9 of a written line are its type byte, whatever its length byte says. */
  lemma RecordTypeOfLine(body: seq<Byte>)
    requires |body| >= 4
    ensures RecordType(Line(body)) == Some(body[3])
  {
    hide FromHex, ToHex, Checksum;
    var text := ToHex(body);
    assert Line(body)[7..9] == text[6..8];
    FromHexToHex(body);
    FromHexPair(text, 3);
  }

  // ----- rewriting the type of a record -----

  /** The line with its type byte replaced and its checksum recomputed; None where the hex text is unreadable. */
  method RetypeLine(line: string, newType: Byte) returns (r: Option<string>)
    requires |line| >= 11
    ensures r == Retype(line, newType)
  {
    var text := line[1..|line| - 2];
    var parsed := FromHex(text);
    if parsed.None? {
      return None;
    }
    var bytes := parsed.value;
    var raw := new Byte[|bytes|](i requires 0 <= i < |bytes| => bytes[i]);
    assert raw[..] == bytes;
    raw[3] := newType;
    assert raw[..] == bytes[3 := newType];
    return Some(Line(raw[..]));
  }

  function Retype(line: string, newType: Byte): Option<string>
    requires |line| >= 11
  {
    match FromHex(line[1..|line| - 2])
    case None => None
    case Some(raw) => Some(Line(raw[3 := newType]))
  }

  /** The bytes of a valid record without its checksum. */
  lemma BodyOfLine(line: string)
    requires Decode(line).Some?
    ensures |line| >= 11
    ensures var r, body := Decode(line).value, FromHex(line[1..|line| - 2]);
            && body.Some? && |body.value| >= 4 && body.value[0] == |body.value| - 4
            && r == Record(Word(body.value[1], body.value[2]), body.value[3], body.value[4..])
  {
    hide ByteSum;
    var b := FromHex(line[1..]).value;
    FromHexWithoutLast(line[1..]);
    assert line[1..][..|line| - 3] == line[1..|line| - 2];
    assert b[..|b| - 1][4..] == b[4..|b| - 1];
  }

  lemma FromHexWithoutLast(text: string)
    requires FromHex(text).Some? && |text| >= 2
    ensures FromHex(text[..|text| - 2]) == Some(FromHex(text).value[..|text| / 2 - 1])
  {
    assert forall i :: 0 <= i < |text| - 2 ==> text[..|text| - 2][i] == text[i];
    var b, c := FromHex(text).value, FromHex(text[..|text| - 2]).value;
    assert forall i :: 0 <= i < |c| ==> c[i] == b[i];
    assert c == b[..|text| / 2 - 1];
  }

  /** For every valid record line only the type changes, and all bytes again sum to zero. */
  lemma RetypeKeepsTheRest(line: string, newType: Byte)
    requires Decode(line).Some?
    ensures |line| >= 11 && Retype(line, newType).Some?
    ensures Decode(Retype(line, newType).value) == Some(Decode(line).value.(kind := newType))
  {
    hide Decode, FromHex, Line;
    BodyOfLine(line);
    var body := FromHex(line[1..|line| - 2]).value;
    DecodeOfLine(body[3 := newType]);
    assert body[3 := newType][4..] == body[4..];
  }

  /** A line with a right length byte decodes exactly when its last byte is the checksum. */
  lemma OnlyTheChecksumDecodes(body: seq<Byte>, c: Byte)
    requires |body| >= 4 && body[0] == |body| - 4
    ensures Decode(LineWith(body, c)).Some? <==> c == Checksum(body)
  {
    DecodeOfLineWith(body, c);
    ChecksumIsUnique(body, c);
    assert (body + [c])[0] == body[0];
  }

  lemma RetypeOfLineWith(body: seq<Byte>, c: Byte, newType: Byte)
    requires |body| >= 4
    ensures Retype(LineWith(body, c), newType) == Some(Line(body[3 := newType]))
  {
    var line := LineWith(body, c);
    assert line[1..|line| - 2] == ToHex(body);
    FromHexToHex(body);
  }

  /** The old checksum is never looked at: a record whose only fault is its checksum comes out valid. */
  lemma RetypeIgnoresTheChecksum(body: seq<Byte>, c: Byte, newType: Byte)
    requires |body| >= 4 && body[0] == |body| - 4
    ensures var r := Retype(LineWith(body, c), newType);
            r.Some? && Decode(r.value) == Some(Record(Word(body[1], body[2]), newType, body[4..]))
  {
    RetypeOfLineWith(body, c, newType);
    var retyped := body[3 := newType];
    assert retyped[4..] == body[4..];
    DecodeOfLine(retyped);
  }

  // ----- what a loader does -----

  datatype Write = Write(address: nat, data: seq<Byte>)

  /** The address base after a record. */
  function NewBase(r: Record, base: nat): nat {
    if |r.data| != 2 then base
    else if r.kind == EXT_LINEAR_ADDR then Word(r.data[0], r.data[1]) * 65536
    else if r.kind == EXT_SEGMENT_ADDR then Word(r.data[0], r.data[1]) * 16
    else base
  }

  /** The writes of an ordinary Intel HEX file: data at the running base, until the first EOF. */
  function Intel(lines: seq<string>, base: nat): seq<Write> {
    if lines == [] then []
    else
      match Decode(lines[0])
      case None => Intel(lines[1..], base)
      case Some(r) =>
        if r.kind == EOF then []
        else if r.kind == DATA then [Write(base + r.address, r.data)] + Intel(lines[1..], base)
        else Intel(lines[1..], NewBase(r, base))
  }

  /** The byte at an address after the writes, later ones winning; None where nothing was written. */
  function ByteAt(writes: seq<Write>, a: nat): Option<Byte> {
    if writes == [] then None
    else
      var w := writes[|writes| - 1];
      if w.address <= a < w.address + |w.data| then Some(w.data[a - w.address])
      else ByteAt(writes[..|writes| - 1], a)
  }

  predicate Covers(w: Write, a: nat) {
    w.address <= a < w.address + |w.data|
  }

  /** An address holds what the last write that covers it put there, and nothing exactly when none does. */
  lemma {:induction false} ByteAtIsTheLastWrite(writes: seq<Write>, a: nat)
    ensures ByteAt(writes, a).None? <==> forall i :: 0 <= i < |writes| ==> !Covers(writes[i], a)
    ensures forall i :: 0 <= i < |writes| && Covers(writes[i], a) && (forall j :: i < j < |writes| ==> !Covers(writes[j], a)) ==>
              ByteAt(writes, a) == Some(writes[i].data[a - writes[i].address])
  {
    if writes != [] {
      ByteAtIsTheLastWrite(writes[..|writes| - 1], a);
    }
  }
}
