/** What reducing a Universal Hex means: the memory image the extracted file loads. */
module UniversalHexMeaning {
  import opened Bytes
  import opened Options
  import opened HexRecords
  import opened UniversalHex
  import RadioNames

  /** The writes a Universal Hex asks for on the wanted boards: the whole file in order, one running address base. */
  function Universal(lines: seq<string>, base: nat, id: BoardId, wanted: set<nat>): seq<Write> {
    if lines == [] then []
    else
      match Decode(lines[0])
      case None => Universal(lines[1..], base, id, wanted)
      case Some(r) =>
        if r.kind == BLOCK_START then
          RecordTypeOfDecoded(lines[0]);
          Universal(lines[1..], base, BoardIdOf(lines[0]), wanted)
        else if r.kind == DATA || r.kind == CUSTOM_DATA then
          (if Wants(wanted, id) then [Write(base + r.address, r.data)] else []) + Universal(lines[1..], base, id, wanted)
        else Universal(lines[1..], NewBase(r, base), id, wanted)
  }

  /** The running base of the file agrees with the base left by the kept records at every wanted data record. */
  predicate Aligned(lines: seq<string>, base: nat, kept: nat, id: BoardId, wanted: set<nat>) {
    lines == [] ||
    match Decode(lines[0])
    case None => Aligned(lines[1..], base, kept, id, wanted)
    case Some(r) =>
      if r.kind == BLOCK_START then
        RecordTypeOfDecoded(lines[0]);
        Aligned(lines[1..], base, kept, BoardIdOf(lines[0]), wanted)
      else if r.kind == DATA || r.kind == CUSTOM_DATA then
        (Wants(wanted, id) ==> base == kept) && Aligned(lines[1..], base, kept, id, wanted)
      else Aligned(lines[1..], NewBase(r, base), if Wants(wanted, Owner(lines, id)) then NewBase(r, kept) else kept, id, wanted)
  }

  predicate SetsBase(r: Record) {
    (r.kind == EXT_LINEAR_ADDR || r.kind == EXT_SEGMENT_ADDR) && |r.data| == 2
  }

  predicate NextIsStart(lines: seq<string>) {
    |lines| > 1 && IsStart(lines[1])
  }

  /** Every wanted block sets its own address base before its first data: either inside it, or by a linear base directly
      before its Block Start. `own` says the open block has done so, `pending` that a base was just carried to the next one. */
  predicate SelfContained(lines: seq<string>, id: BoardId, own: bool, pending: bool, wanted: set<nat>) {
    lines == [] ||
    match Decode(lines[0])
    case None => SelfContained(lines[1..], id, own, false, wanted)
    case Some(r) =>
      if r.kind == BLOCK_START then
        RecordTypeOfDecoded(lines[0]);
        SelfContained(lines[1..], BoardIdOf(lines[0]), pending, pending, wanted)
      else if r.kind == DATA || r.kind == CUSTOM_DATA then
        (Wants(wanted, id) ==> own) && SelfContained(lines[1..], id, own, false, wanted)
      else if SetsBase(r) then
        if r.kind == EXT_LINEAR_ADDR && NextIsStart(lines)
        then SelfContained(lines[1..], id, own, true, wanted)
        else SelfContained(lines[1..], id, true, false, wanted)
      else SelfContained(lines[1..], id, own, false, wanted)
  }

  // ----- one line at a time -----

  lemma IntelCons(line: string, lines: seq<string>, base: nat)
    requires Decode(line).Some?
    ensures var r := Decode(line).value;
            Intel([line] + lines, base)
            == if r.kind == EOF then []
               else if r.kind == DATA then [Write(base + r.address, r.data)] + Intel(lines, base)
               else Intel(lines, NewBase(r, base))
  {
    assert ([line] + lines)[1..] == lines;
  }

  /** What a kept line does to the loader of the extracted file. */
  lemma IntelOfKeep(line: string, lines: seq<string>, base: nat)
    requires WellFormed(line) && !IsStart(line)
    ensures Intel(Keep(line) + lines, base)
            == match Decode(line)
               case None => Intel(lines, base)
               case Some(r) =>
                 if r.kind == DATA || r.kind == CUSTOM_DATA then [Write(base + r.address, r.data)] + Intel(lines, base)
                 else Intel(lines, NewBase(r, base))
  {
    hide Retype, FromHex, RecordType;
    if Decode(line).None? {
      assert Keep(line) + lines == lines;
    } else {
      RecordTypeOfDecoded(line);
      var r := Decode(line).value;
      if r.kind == CUSTOM_DATA {
        RetypeKeepsTheRest(line, DATA);
        IntelCons(Retype(line, DATA).value, lines, base);
      } else if r.kind in {BLOCK_END, PADDED_DATA, OTHER_DATA, EOF} {
        assert Keep(line) + lines == lines;
      } else {
        IntelCons(line, lines, base);
      }
    }
  }

  lemma DecodedType(line: string)
    requires WellFormed(line)
    ensures IsStart(line) <==> Decode(line).Some? && Decode(line).value.kind == BLOCK_START
    ensures IsLinearBase(line) <==> Decode(line).Some? && Decode(line).value.kind == EXT_LINEAR_ADDR
    ensures Decode(line).None? ==> RecordType(line).None?
  {
    hide RecordType, Decode;
    if Decode(line).Some? {
      RecordTypeOfDecoded(line);
    }
  }

  lemma ConsAgree(v: Write, w: Write, s: seq<Write>, t: seq<Write>)
    ensures [v] + s == [w] + t <==> v == w && s == t
  {
    if [v] + s == [w] + t {
      assert ([v] + s)[0] == ([w] + t)[0] && ([v] + s)[1..] == ([w] + t)[1..];
      assert ([v] + s)[1..] == s && ([w] + t)[1..] == t;
    }
  }

  // ----- the extracted file loads the right image: exactly when -----

  /** The extracted file makes exactly the writes of the Universal Hex if and only if the bases agree at each of them. */
  lemma {:induction false} MeaningKeptIffAligned(lines: seq<string>, base: nat, kept: nat, id: BoardId, wanted: set<nat>)
    requires AllWellFormed(lines)
    ensures Intel(Select(lines, id, wanted) + [EOF_LINE], kept) == Universal(lines, base, id, wanted)
            <==> Aligned(lines, base, kept, id, wanted)
  {
    hide Decode, RecordType, Keep, BoardIdOf;
    if lines == [] {
      EofLineDecodes();
      IntelCons(EOF_LINE, [], kept);
      assert [] + [EOF_LINE] == [EOF_LINE] + [];
    } else {
      var line, rest := lines[0], lines[1..];
      assert AllWellFormed(rest) by {
        assert forall i :: 0 <= i < |rest| ==> rest[i] == lines[i + 1];
      }
      assert WellFormed(lines[0]);
      DecodedType(line);
      if IsStart(line) {
        MeaningKeptIffAligned(rest, base, kept, BoardIdOf(line), wanted);
      } else {
        var owner := Owner(lines, id);
        var later := Select(rest, id, wanted) + [EOF_LINE];
        IntelOfKeep(line, later, kept);
        assert Select(lines, id, wanted) + [EOF_LINE] == Kept(line, owner, wanted) + later;
        assert Wants(wanted, owner) ==> Kept(line, owner, wanted) + later == Keep(line) + later;
        assert !Wants(wanted, owner) ==> Kept(line, owner, wanted) + later == later;
        if Decode(line).None? {
          MeaningKeptIffAligned(rest, base, kept, id, wanted);
        } else {
          var r := Decode(line).value;
          if r.kind == DATA || r.kind == CUSTOM_DATA {
            MeaningKeptIffAligned(rest, base, kept, id, wanted);
            ConsAgree(Write(kept + r.address, r.data), Write(base + r.address, r.data), Intel(later, kept), Universal(rest, base, id, wanted));
          } else {
            MeaningKeptIffAligned(rest, NewBase(r, base), if Wants(wanted, owner) then NewBase(r, kept) else kept, id, wanted);
          }
        }
      }
    }
  }

  /** A self-contained file is aligned, whatever the bases it starts from. */
  lemma {:induction false} SelfContainedIsAligned(lines: seq<string>, base: nat, kept: nat, id: BoardId, own: bool, pending: bool,
                                                   wanted: set<nat>)
    requires AllWellFormed(lines) && SelfContained(lines, id, own, pending, wanted)
    requires pending ==> Wants(wanted, IdAfterStarts(lines, id)) ==> base == kept
    requires !pending ==> own && Wants(wanted, id) ==> base == kept
    requires pending && (lines == [] || !IsStart(lines[0])) ==> own
    ensures Aligned(lines, base, kept, id, wanted)
  {
    hide Decode, RecordType, BoardIdOf;
    if lines != [] {
      var line, rest := lines[0], lines[1..];
      assert AllWellFormed(rest) by {
        assert forall i :: 0 <= i < |rest| ==> rest[i] == lines[i + 1];
      }
      assert WellFormed(lines[0]);
      DecodedType(line);
      if IsStart(line) {
        SelfContainedIsAligned(rest, base, kept, BoardIdOf(line), pending, pending, wanted);
      } else if Decode(line).None? {
        SelfContainedIsAligned(rest, base, kept, id, own, false, wanted);
      } else {
        var r := Decode(line).value;
        var owner := Owner(lines, id);
        var kept' := if Wants(wanted, owner) then NewBase(r, kept) else kept;
        if r.kind == DATA || r.kind == CUSTOM_DATA {
          SelfContainedIsAligned(rest, base, kept, id, own, false, wanted);
        } else if SetsBase(r) && r.kind == EXT_LINEAR_ADDR && NextIsStart(lines) {
          assert rest[0] == lines[1];
          SelfContainedIsAligned(rest, NewBase(r, base), kept', id, own, true, wanted);
        } else {
          SelfContainedIsAligned(rest, NewBase(r, base), kept', id, SetsBase(r) || own, false, wanted);
        }
      }
    }
  }

  /** For every well-formed file whose wanted blocks set their own base, the extracted file loads exactly the wanted image. */
  lemma ExtractedImageIsTheWantedImage(lines: seq<string>, targetMcu: string, a: nat)
    requires AllWellFormed(lines) && ExtractSpec(lines, targetMcu).Extracted?
    requires SelfContained(lines, None, false, false, BoardIdsForMcu(targetMcu).value)
    ensures var out := ExtractSpec(lines, targetMcu).lines;
            && Intel(out, 0) == Universal(lines, 0, None, BoardIdsForMcu(targetMcu).value)
            && ByteAt(Intel(out, 0), a) == ByteAt(Universal(lines, 0, None, BoardIdsForMcu(targetMcu).value), a)
  {
    hide Decode, RecordType, BoardIdsForMcu, Select, Aligned, Universal;
    var wanted := BoardIdsForMcu(targetMcu).value;
    SelfContainedIsAligned(lines, 0, 0, None, false, false, wanted);
    MeaningKeptIffAligned(lines, 0, 0, None, wanted);
  }

  // ----- when it fails -----

  lemma {:induction false} KeptDataIffWrites(lines: seq<string>, base: nat, id: BoardId, wanted: set<nat>)
    requires AllWellFormed(lines)
    ensures HasData(Select(lines, id, wanted)) <==> Universal(lines, base, id, wanted) != []
  {
    hide Decode, RecordType, BoardIdOf, Keep;
    if lines != [] {
      var line, rest := lines[0], lines[1..];
      assert AllWellFormed(rest) by {
        assert forall i :: 0 <= i < |rest| ==> rest[i] == lines[i + 1];
      }
      assert WellFormed(lines[0]);
      DecodedType(line);
      if IsStart(line) {
        KeptDataIffWrites(rest, base, BoardIdOf(line), wanted);
      } else {
        DataOfKeep(line);
        var kept, later := Kept(line, Owner(lines, id), wanted), Select(rest, id, wanted);
        HasDataAppended(kept, later);
        var base' := if Decode(line).Some? && !(Decode(line).value.kind in {DATA, CUSTOM_DATA}) then NewBase(Decode(line).value, base) else base;
        KeptDataIffWrites(rest, base', id, wanted);
      }
    }
  }

  lemma HasDataAppended(a: seq<string>, b: seq<string>)
    ensures HasData(a + b) <==> HasData(a) || HasData(b)
  {
    hide RecordType;
    if HasData(a) {
      var i :| 0 <= i < |a| && RecordType(a[i]) == Some(DATA);
      assert (a + b)[i] == a[i];
    }
    if HasData(b) {
      var i :| 0 <= i < |b| && RecordType(b[i]) == Some(DATA);
      assert (a + b)[|a| + i] == b[i];
    }
  }

  lemma DataOfKeep(line: string)
    requires WellFormed(line)
    ensures HasData(Keep(line)) <==> Decode(line).Some? && Decode(line).value.kind in {DATA, CUSTOM_DATA}
    ensures !HasData([])
  {
    hide Retype, Decode, RecordType;
    DecodedType(line);
    if Decode(line).Some? {
      RecordTypeOfDecoded(line);
      var r := Decode(line).value;
      if r.kind == CUSTOM_DATA {
        RetypeKeepsTheRest(line, DATA);
        RecordTypeOfDecoded(Retype(line, DATA).value);
        assert RecordType(Keep(line)[0]) == Some(DATA);
      } else if r.kind == DATA {
        assert RecordType(Keep(line)[0]) == Some(DATA);
      }
    }
  }

  /** The call reports "no image" exactly when the wanted blocks hold no data record at all. */
  lemma NoImageIffNothingToWrite(lines: seq<string>, targetMcu: string)
    requires AllWellFormed(lines) && BoardIdsForMcu(targetMcu).Some?
    ensures ExtractSpec(lines, targetMcu).NoImage? <==> Universal(lines, 0, None, BoardIdsForMcu(targetMcu).value) == []
    ensures ExtractSpec(lines, targetMcu).NoImage? <==> !ExtractSpec(lines, targetMcu).Extracted?
  {
    hide Decode, RecordType, BoardIdsForMcu, Select, Universal, HasData, Unreadable;
    WellFormedIsReadable(lines, None, BoardIdsForMcu(targetMcu).value);
    KeptDataIffWrites(lines, 0, None, BoardIdsForMcu(targetMcu).value);
  }

  // ----- the shape of the output -----

  lemma EofLineDecodes()
    ensures Decode(EOF_LINE) == Some(Record(0, EOF, [])) && RecordType(EOF_LINE) == Some(EOF)
  {
    hide *;
    EofLineIsRendered();
    DecodeOfRendered(Record(0, EOF, []));
  }

  lemma EofLineIsRendered()
    ensures Render(Record(0, EOF, [])) == EOF_LINE
  {
    hide Checksum, ByteSum, ToHex;
    var body := Body(Record(0, EOF, []));
    assert body == [0, 0, 0, 1];
    EofChecksum();
    EofHex();
  }

  lemma EofHex()
    ensures ToHex([0, 0, 0, 1]) == "00000001" && ToHex([255]) == "FF"
  {
    var s, t := ToHex([0, 0, 0, 1]), "00000001";
    assert s[0] == t[0] && s[1] == t[1] && s[2] == t[2] && s[3] == t[3];
    assert s[4] == t[4] && s[5] == t[5] && s[6] == t[6] && s[7] == t[7];
  }

  lemma EofChecksum()
    ensures Checksum([0, 0, 0, 1]) == 255
  {
    hide ByteSum;
    SumOfNone();
    SumOfAppended([], 0);
    SumOfAppended([0], 0);
    SumOfAppended([0, 0], 0);
    SumOfAppended([0, 0, 0], 1);
    assert [] + [0] == [0] && [0] + [0] == [0, 0] && [0, 0] + [0] == [0, 0, 0] && [0, 0, 0] + [1] == [0, 0, 0, 1];
  }

  lemma SumOfNone()
    ensures ByteSum([]) == 0
  {
  }

  /** A record type an ordinary Intel HEX file may hold before its EOF: no block bookkeeping and no custom data. */
  predicate IsPlain(line: string) {
    RecordType(line).Some? && RecordType(line).value !in {BLOCK_START, BLOCK_END, PADDED_DATA, CUSTOM_DATA, OTHER_DATA, EOF}
  }

  lemma KeepIsPlain(line: string)
    requires !IsStart(line)
    ensures forall l :: l in Keep(line) ==> IsPlain(l)
  {
    hide ByteSum, ToHex, Decode;
    if RecordType(line) == Some(CUSTOM_DATA) && Retype(line, DATA).Some? {
      RecordTypeOfRetyped(line, DATA);
    }
  }

  lemma RecordTypeOfRetyped(line: string, newType: Byte)
    requires |line| >= 11 && Retype(line, newType).Some?
    ensures RecordType(Retype(line, newType).value) == Some(newType)
  {
    hide RecordType, Line;
    RecordTypeOfLine(FromHex(line[1..|line| - 2]).value[3 := newType]);
  }

  lemma {:induction false} SelectedIsPlain(lines: seq<string>, id: BoardId, wanted: set<nat>)
    ensures forall l :: l in Select(lines, id, wanted) ==> IsPlain(l)
  {
    hide RecordType, Keep, BoardIdOf, IsPlain;
    if lines != [] {
      if IsStart(lines[0]) {
        SelectedIsPlain(lines[1..], BoardIdOf(lines[0]), wanted);
      } else {
        KeepIsPlain(lines[0]);
        SelectedIsPlain(lines[1..], id, wanted);
      }
    }
  }

  datatype Normalized = PassThrough | Converted(lines: seq<string>) | Failed(why: Extraction)

  /** A file is a Universal Hex exactly when one of its records, anywhere, is a Block Start. */
  lemma UniversalIffBlockStart(lines: seq<string>)
    ensures IsUniversalHex(lines) <==> exists i :: 0 <= i < |lines| && RecordType(lines[i]) == Some(0x0A)
    ensures AllWellFormed(lines) ==>
              (IsUniversalHex(lines) <==> exists i :: 0 <= i < |lines| && Decode(lines[i]).Some? && Decode(lines[i]).value.kind == 0x0A)
  {
    hide RecordType, Decode, WellFormed;
    forall i | 0 <= i < |lines| && WellFormed(lines[i])
      ensures IsStart(lines[i]) <==> Decode(lines[i]).Some? && Decode(lines[i]).value.kind == 0x0A
    {
      DecodedType(lines[i]);
    }
  }

  /** normalized_hex: a plain file is used as it is, a Universal Hex is converted. */
  method NormalizedHex(lines: seq<string>, targetMcu: string) returns (r: Normalized)
    ensures r.PassThrough? <==> !IsUniversalHex(lines)
    ensures AllWellFormed(lines) ==>
              (r.PassThrough? <==> forall i :: 0 <= i < |lines| ==> !(Decode(lines[i]).Some? && Decode(lines[i]).value.kind == 0x0A))
    ensures r.Converted? ==> ExtractSpec(lines, targetMcu) == Extracted(r.lines)
    ensures r.Failed? ==> r.why == ExtractSpec(lines, targetMcu) && !r.why.Extracted?
  {
    hide RecordType, ExtractSpec, Decode;
    UniversalIffBlockStart(lines);
    if !IsUniversalHex(lines) {
      return PassThrough;
    }
    var e := ExtractForMcu(lines, targetMcu);
    r := if e.Extracted? then Converted(e.lines) else Failed(e);
  }

  /** The output holds no block record and exactly one EOF, last; so normalising it again passes it through. */
  lemma ExtractedIsPlainIntelHex(lines: seq<string>, targetMcu: string)
    requires ExtractSpec(lines, targetMcu).Extracted?
    ensures var out := ExtractSpec(lines, targetMcu).lines;
            && |out| > 1 && out[|out| - 1] == EOF_LINE && RecordType(EOF_LINE) == Some(EOF)
            && (forall i :: 0 <= i < |out| - 1 ==> IsPlain(out[i]))
            && !IsUniversalHex(out)
  {
    hide Decode, Select, BoardIdsForMcu;
    EofLineDecodes();
    SelectedIsPlain(lines, None, BoardIdsForMcu(targetMcu).value);
  }

  // ----- files for which the image is not kept -----

  /** A V1 block that sets a base and holds `middle` after it, then a V2 block with one byte and no base of its own. */
  ghost function BorrowedBase(baseKind: Byte, middle: seq<Record>): seq<string>
    requires forall r :: r in middle ==> |r.data| < 256 && r.address < 0x10000
  {
    [Render(Record(0, BLOCK_START, [0x99, 0x00, 0xC0, 0xDE])), Render(Record(0, baseKind, [0x10, 0]))]
    + seq(|middle|, i requires 0 <= i < |middle| => Render(middle[i]))
    + [Render(Record(0, BLOCK_START, [0x99, 0x03, 0xC0, 0xDE])), Render(Record(0, CUSTOM_DATA, [7]))]
  }

  lemma StartIdOfRendered(r: Record)
    requires r.kind == BLOCK_START && 2 <= |r.data| < 256 && r.address < 0x10000
    ensures IsStart(Render(r)) && BoardIdOf(Render(r)) == Some(Word(r.data[0], r.data[1]))
  {
    DecodeOfRendered(r);
    var line := Render(r);
    var t := line[9..13];
    BoardIdText(Body(r));
  }

  /** Columns 10 to 13 spell the first two payload bytes. */
  lemma BoardIdText(body: seq<Byte>)
    requires |body| >= 6
    ensures |Line(body)| >= 13 && ParseHex(Line(body)[9..13]) == Some(Word(body[4], body[5]))
  {
    hide Checksum;
    var text := ToHex(body);
    var t := Line(body)[9..13];
    assert t[0] == text[8] && t[1] == text[9] && t[2] == text[10] && t[3] == text[11];
    assert text[8] == HexDigit(body[4] / 16) && text[9] == HexDigit(body[4] % 16);
    assert text[10] == HexDigit(body[5] / 16) && text[11] == HexDigit(body[5] % 16);
    FourHexDigits(t);
  }

  lemma FourHexDigits(t: string)
    requires |t| == 4 && AllHex(t)
    ensures HexNumber(t) == ((HexValue(t[0]) * 16 + HexValue(t[1])) * 16 + HexValue(t[2])) * 16 + HexValue(t[3])
  {
    assert t[..3][..2] == t[..2] && t[..2][..1] == t[..1] && t[..1][..0] == [];
    assert HexNumber(t[..1]) == HexValue(t[0]);
    assert HexNumber(t[..2]) == HexNumber(t[..1]) * 16 + HexValue(t[1]);
    assert HexNumber(t[..3]) == HexNumber(t[..2]) * 16 + HexValue(t[2]);
  }

  lemma V2TailIsMisaligned(lines: seq<string>, base: nat, id: BoardId)
    requires lines == [Render(Record(0, BLOCK_START, [0x99, 0x03, 0xC0, 0xDE])), Render(Record(0, CUSTOM_DATA, [7]))]
    requires base != 0
    ensures !Aligned(lines, base, 0, id, V2_BOARD_IDS)
    ensures IsStart(lines[0]) && AllWellFormed(lines)
  {
    hide Decode, RecordType, Render, BoardIdOf;
    DecodeOfRendered(Record(0, BLOCK_START, [0x99, 0x03, 0xC0, 0xDE]));
    StartIdOfRendered(Record(0, BLOCK_START, [0x99, 0x03, 0xC0, 0xDE]));
    DecodeOfRendered(Record(0, CUSTOM_DATA, [7]));
    assert lines[1..] == [lines[1]];
    assert !Aligned(lines[1..], base, 0, Some(0x9903), V2_BOARD_IDS);
  }

  lemma V1HeadIsSkipped(lines: seq<string>, baseKind: Byte)
    requires baseKind == EXT_LINEAR_ADDR || baseKind == EXT_SEGMENT_ADDR
    requires |lines| >= 3 && lines[0] == Render(Record(0, BLOCK_START, [0x99, 0x00, 0xC0, 0xDE]))
    requires lines[1] == Render(Record(0, baseKind, [0x10, 0]))
    requires baseKind == EXT_LINEAR_ADDR ==> !IsStart(lines[2])
    ensures Aligned(lines, 0, 0, None, V2_BOARD_IDS)
            == Aligned(lines[2..], if baseKind == EXT_LINEAR_ADDR then 0x1000_0000 else 0x1_0000, 0, Some(0x9900), V2_BOARD_IDS)
    ensures WellFormed(lines[0]) && IsStart(lines[0]) && WellFormed(lines[1])
  {
    hide Decode, RecordType, Render, BoardIdOf;
    var start, base := Record(0, BLOCK_START, [0x99, 0x00, 0xC0, 0xDE]), Record(0, baseKind, [0x10, 0]);
    DecodeOfRendered(start);
    StartIdOfRendered(start);
    DecodeOfRendered(base);
    var rest := lines[1..];
    assert rest[0] == lines[1] && rest[1] == lines[2] && rest[1..] == lines[2..];
    assert Owner(rest, Some(0x9900)) == Some(0x9900);
    assert Aligned(lines, 0, 0, None, V2_BOARD_IDS) == Aligned(rest, 0, 0, Some(0x9900), V2_BOARD_IDS);
  }

  /** Well-formed Universal Hex files whose V2 byte moves: the V2 block has no base of its own and follows a V1 block
      that set one, or its segment base stands directly before its Block Start, where only a linear base is carried. */
  lemma BasesCanBeLost(baseKind: Byte)
    requires baseKind == EXT_LINEAR_ADDR || baseKind == EXT_SEGMENT_ADDR
    ensures var lines := BorrowedBase(baseKind, if baseKind == EXT_LINEAR_ADDR then [Record(0, DATA, [1])] else []);
            && AllWellFormed(lines) && IsUniversalHex(lines)
            && Intel(Select(lines, None, V2_BOARD_IDS) + [EOF_LINE], 0) != Universal(lines, 0, None, V2_BOARD_IDS)
  {
    hide Decode, RecordType, Render, BoardIdOf, Select, Universal;
    var middle := if baseKind == EXT_LINEAR_ADDR then [Record(0, DATA, [1])] else [];
    var lines := BorrowedBase(baseKind, middle);
    var tail := [Render(Record(0, BLOCK_START, [0x99, 0x03, 0xC0, 0xDE])), Render(Record(0, CUSTOM_DATA, [7]))];
    if baseKind == EXT_LINEAR_ADDR {
      DecodeOfRendered(middle[0]);
      assert lines[2] == Render(middle[0]) && lines[3..] == tail && lines[2..][1..] == tail;
      V2TailIsMisaligned(tail, 0x1000_0000, Some(0x9900));
    } else {
      assert lines[2..] == tail;
      V2TailIsMisaligned(tail, 0x1_0000, Some(0x9900));
    }
    V1HeadIsSkipped(lines, baseKind);
    assert !Aligned(lines, 0, 0, None, V2_BOARD_IDS);
    assert AllWellFormed(lines) by {
      assert forall i :: |lines| - 2 <= i < |lines| ==> lines[i] == tail[i - (|lines| - 2)];
    }
    MeaningKeptIffAligned(lines, 0, 0, None, V2_BOARD_IDS);
  }

  // ----- the reference, line by line -----

  /** The board in force at line i: that of the last Block Start before it. */
  function BoardAt(lines: seq<string>, i: nat, id: BoardId): BoardId
    requires i <= |lines|
  {
    if i == 0 then id else if IsStart(lines[i - 1]) then BoardIdOf(lines[i - 1]) else BoardAt(lines, i - 1, id)
  }

  /** The address base in force at line i. */
  function BaseAt(lines: seq<string>, i: nat, base: nat): nat
    requires i <= |lines|
  {
    if i == 0 then base
    else
      match Decode(lines[i - 1])
      case None => BaseAt(lines, i - 1, base)
      case Some(r) => NewBase(r, BaseAt(lines, i - 1, base))
  }

  function IdAfter(line: string, id: BoardId): BoardId {
    if IsStart(line) then BoardIdOf(line) else id
  }

  function BaseAfter(line: string, base: nat): nat {
    match Decode(line) case None => base case Some(r) => NewBase(r, base)
  }

  lemma {:induction false} FromTheSecondLine(lines: seq<string>, i: nat, base: nat, id: BoardId)
    requires i < |lines|
    ensures BoardAt(lines[1..], i, IdAfter(lines[0], id)) == BoardAt(lines, i + 1, id)
    ensures BaseAt(lines[1..], i, BaseAfter(lines[0], base)) == BaseAt(lines, i + 1, base)
  {
    hide IsStart, BoardIdOf, Decode, NewBase;
    if i > 0 {
      FromTheSecondLine(lines, i - 1, base, id);
    } else {
      assert BoardAt(lines, 0, id) == id && BaseAt(lines, 0, base) == base;
    }
  }

  /** A data or custom data record of a wanted board. */
  predicate IsWantedData(lines: seq<string>, i: nat, id: BoardId, wanted: set<nat>)
    requires i < |lines|
  {
    && Decode(lines[i]).Some? && (Decode(lines[i]).value.kind == 0x00 || Decode(lines[i]).value.kind == 0x0D)
    && BoardAt(lines, i, id).Some? && BoardAt(lines, i, id).value in wanted
  }

  /** Where the wanted writes come from: exactly the data and custom data records of wanted boards, each at the base in force there. */
  lemma {:induction false} WritesAreTheWantedData(lines: seq<string>, base: nat, id: BoardId, wanted: set<nat>, w: Write)
    requires AllWellFormed(lines)
    ensures w in Universal(lines, base, id, wanted)
            <==> exists i :: 0 <= i < |lines| && IsWantedData(lines, i, id, wanted)
                             && w == Write(BaseAt(lines, i, base) + Decode(lines[i]).value.address, Decode(lines[i]).value.data)
  {
    hide Decode, RecordType, BoardIdOf, Universal, BaseAfter, IdAfter;
    if lines == [] {
      NothingToWrite(base, id, wanted);
    } else {
      var line, rest := lines[0], lines[1..];
      assert AllWellFormed(rest) by {
        assert forall i :: 0 <= i < |rest| ==> rest[i] == lines[i + 1];
      }
      var base', id' := BaseAfter(line, base), IdAfter(line, id);
      WritesAreTheWantedData(rest, base', id', wanted, w);
      FirstLineWrites(lines, base, id, wanted);
      assert BoardAt(lines, 0, id) == id && BaseAt(lines, 0, base) == base;
      forall i | 0 <= i < |rest|
        ensures IsWantedData(rest, i, id', wanted) <==> IsWantedData(lines, i + 1, id, wanted)
        ensures BaseAt(rest, i, base') == BaseAt(lines, i + 1, base)
      {
        FromTheSecondLine(lines, i, base, id);
        assert rest[i] == lines[i + 1];
      }
      hide IsWantedData, BaseAt;
      if exists i :: 0 <= i < |lines| && IsWantedData(lines, i, id, wanted)
                     && w == Write(BaseAt(lines, i, base) + Decode(lines[i]).value.address, Decode(lines[i]).value.data) {
        var i :| 0 <= i < |lines| && IsWantedData(lines, i, id, wanted)
                 && w == Write(BaseAt(lines, i, base) + Decode(lines[i]).value.address, Decode(lines[i]).value.data);
        if i > 0 {
          assert rest[i - 1] == lines[i] && IsWantedData(rest, i - 1, id', wanted);
        }
      }
    }
  }

  lemma NothingToWrite(base: nat, id: BoardId, wanted: set<nat>)
    ensures Universal([], base, id, wanted) == []
  {
  }

  lemma FirstLineWrites(lines: seq<string>, base: nat, id: BoardId, wanted: set<nat>)
    requires lines != [] && WellFormed(lines[0])
    ensures Universal(lines, base, id, wanted)
            == FirstWrite(lines, base, id, wanted) + Universal(lines[1..], BaseAfter(lines[0], base), IdAfter(lines[0], id), wanted)
  {
    hide Decode, RecordType, BoardIdOf;
    DecodedType(lines[0]);
  }

  /** What the first line writes. */
  ghost function FirstWrite(lines: seq<string>, base: nat, id: BoardId, wanted: set<nat>): seq<Write>
    requires lines != []
  {
    if IsWantedData(lines, 0, id, wanted) then [Write(base + Decode(lines[0]).value.address, Decode(lines[0]).value.data)] else []
  }

  /** Custom data of a wanted board whose hex text cannot be read, or a Block Start whose board ID cannot. */
  predicate IsFault(lines: seq<string>, i: nat, id: BoardId, wanted: set<nat>)
    requires i < |lines|
  {
    if RecordType(lines[i]) == Some(0x0A) then ParseHex(lines[i][9..if |lines[i]| < 13 then |lines[i]| else 13]).None?
    else
      && RecordType(lines[i]) == Some(0x0D) && FromHex(lines[i][1..|lines[i]| - 2]).None?
      && BoardAt(lines, i, id).Some? && BoardAt(lines, i, id).value in wanted
  }

  /** The conversion raises exactly when some line, anywhere, is such a fault. */
  lemma {:induction false} UnreadableIffFault(lines: seq<string>, id: BoardId, wanted: set<nat>)
    ensures Unreadable(lines, id, wanted) <==> exists i :: 0 <= i < |lines| && IsFault(lines, i, id, wanted)
  {
    hide RecordType, BoardIdOf, Decode, FromHex;
    if lines != [] {
      var line, rest, id' := lines[0], lines[1..], IdAfter(lines[0], id);
      UnreadableIffFault(rest, id', wanted);
      FirstFault(lines, id, wanted);
      hide Unreadable, IsFault;
      forall i | 0 <= i < |rest| ensures IsFault(rest, i, id', wanted) <==> IsFault(lines, i + 1, id, wanted) {
        FaultFromTheSecondLine(lines, i, id, wanted);
      }
      if exists i :: 0 <= i < |lines| && IsFault(lines, i, id, wanted) {
        var i :| 0 <= i < |lines| && IsFault(lines, i, id, wanted);
        if i > 0 {
          assert IsFault(rest, i - 1, id', wanted);
        }
      }
    }
  }

  lemma FirstFault(lines: seq<string>, id: BoardId, wanted: set<nat>)
    requires lines != []
    ensures Unreadable(lines, id, wanted) <==> IsFault(lines, 0, id, wanted) || Unreadable(lines[1..], IdAfter(lines[0], id), wanted)
  {
    hide RecordType, Decode, FromHex;
    if IsStart(lines[0]) && BoardIdOf(lines[0]).None? {
      assert IsFault(lines, 0, id, wanted);
    }
  }

  lemma FaultFromTheSecondLine(lines: seq<string>, i: nat, id: BoardId, wanted: set<nat>)
    requires i + 1 < |lines|
    ensures IsFault(lines[1..], i, IdAfter(lines[0], id), wanted) <==> IsFault(lines, i + 1, id, wanted)
  {
    hide RecordType, FromHex, BoardAt, IdAfter;
    assert lines[1..][i] == lines[i + 1];
    FromTheSecondLine(lines, i, 0, id);
  }

  /** The boards named in the error of a missing image: those of the readable Block Starts, anywhere in the file. */
  lemma BoardsInIff(lines: seq<string>, board: nat)
    ensures board in BoardsIn(lines) <==>
            exists i :: 0 <= i < |lines| && RecordType(lines[i]) == Some(0x0A)
                        && ParseHex(lines[i][9..if |lines[i]| < 13 then |lines[i]| else 13]) == Some(board)
  {
    hide RecordType, ParseHex;
  }

  /** What becomes of a valid record of a wanted board: block bookkeeping, padding, other data and EOF go, custom data becomes
      data with everything else kept, and any other record stays as it is written. */
  lemma KeptRecord(line: string)
    requires Decode(line).Some?
    ensures var r := Decode(line).value;
            if r.kind == 0x0D then |Keep(line)| == 1 && Decode(Keep(line)[0]) == Some(Record(r.address, 0x00, r.data))
            else if r.kind in {0x01, 0x0B, 0x0C, 0x0E} then Keep(line) == []
            else Keep(line) == [line]
  {
    hide Decode, Retype;
    RecordTypeOfDecoded(line);
    if Decode(line).value.kind == CUSTOM_DATA {
      RetypeKeepsTheRest(line, DATA);
    }
  }

  /** Which board IDs a pyOCD target name stands for: its first five letters decide, in either case. */
  lemma BoardIdsByChip(targetMcu: string)
    ensures BoardIdsForMcu(targetMcu)
            == if |targetMcu| >= 5 && RadioNames.Lower(targetMcu)[..5] == "nrf51" then Some({0x9900, 0x9901})
               else if |targetMcu| >= 5 && RadioNames.Lower(targetMcu)[..5] == "nrf52" then Some({0x9903, 0x9904, 0x9905, 0x9906})
               else None
  {
  }

  /** The board ID of a valid Block Start is the first two bytes of its payload. */
  lemma BoardIdOfRecord(line: string)
    requires Decode(line).Some? && Decode(line).value.kind == 0x0A && |Decode(line).value.data| >= 2
    ensures IsStart(line) && BoardIdOf(line) == Some(Word(Decode(line).value.data[0], Decode(line).value.data[1]))
  {
    RecordTypeOfDecoded(line);
    var text := line[1..];
    var b := FromHex(text).value;
    FromHexPair(text, 4);
    FromHexPair(text, 5);
    hide Decode, FromHex, RecordType;
    var t := line[9..13];
    assert t[..2] == text[8..10] && t[2..] == text[10..12];
    FourHexDigits(t);
    TwoHexDigits(t[..2]);
    TwoHexDigits(t[2..]);
  }

  lemma TwoHexDigits(t: string)
    requires |t| == 2 && AllHex(t)
    ensures HexNumber(t) == HexValue(t[0]) * 16 + HexValue(t[1])
  {
    assert t[..1][..0] == [];
    assert HexNumber(t[..1]) == HexValue(t[0]);
  }

  // ----- an ordinary file -----

  /** A file as they are written: a base before the first Block Start, one block for each board, each with its own base. */
  ghost function OrdinaryFile(hi: Byte, lo: Byte, v2: Record, v1: Record): seq<string>
    requires |v2.data| < 256 && v2.address < 0x10000 && |v1.data| < 256 && v1.address < 0x10000
  {
    [Render(Record(0, 0x04, [hi, lo])), Render(Record(0, 0x0A, [0x99, 0x03, 0xC0, 0xDE])), Render(v2),
     Render(Record(0, 0x04, [hi, lo])), Render(Record(0, 0x0A, [0x99, 0x00, 0xC0, 0xDE])), Render(v1)]
  }

  lemma OrdinaryLines(hi: Byte, lo: Byte, v2: Record, v1: Record)
    requires v2.kind == 0x0D && v1.kind == 0x00 && |v2.data| < 256 && v2.address < 0x10000 && |v1.data| < 256 && v1.address < 0x10000
    ensures var lines := OrdinaryFile(hi, lo, v2, v1);
            && AllWellFormed(lines) && (forall i :: 0 <= i < 6 ==> Decode(lines[i]).Some?)
            && Decode(lines[0]).value == Record(0, 0x04, [hi, lo]) && !IsStart(lines[0])
            && Decode(lines[1]).value.kind == 0x0A && IsStart(lines[1]) && BoardIdOf(lines[1]) == Some(0x9903)
            && Decode(lines[2]).value == v2 && !IsStart(lines[2])
            && Decode(lines[3]).value == Record(0, 0x04, [hi, lo]) && !IsStart(lines[3])
            && Decode(lines[4]).value.kind == 0x0A && IsStart(lines[4]) && BoardIdOf(lines[4]) == Some(0x9900)
            && Decode(lines[5]).value == v1 && !IsStart(lines[5])
  {
    hide Decode, RecordType, Render, BoardIdOf;
    DecodeOfRendered(Record(0, 0x04, [hi, lo]));
    StartIdOfRendered(Record(0, 0x0A, [0x99, 0x03, 0xC0, 0xDE]));
    DecodeOfRendered(Record(0, 0x0A, [0x99, 0x03, 0xC0, 0xDE]));
    DecodeOfRendered(v2);
    StartIdOfRendered(Record(0, 0x0A, [0x99, 0x00, 0xC0, 0xDE]));
    DecodeOfRendered(Record(0, 0x0A, [0x99, 0x00, 0xC0, 0xDE]));
    DecodeOfRendered(v1);
  }

  /** Such a file is a Universal Hex and meets the condition, and what is extracted for a V2 board writes its data at its address. */
  lemma OrdinaryFileIsReduced(hi: Byte, lo: Byte, v2: Record, v1: Record)
    requires v2.kind == 0x0D && v1.kind == 0x00 && |v2.data| < 256 && v2.address < 0x10000 && |v1.data| < 256 && v1.address < 0x10000
    ensures var lines := OrdinaryFile(hi, lo, v2, v1);
            && IsUniversalHex(lines) && SelfContained(lines, None, false, false, {0x9903, 0x9904, 0x9905, 0x9906})
            && ExtractSpec(lines, "nrf52833").Extracted?
            && Intel(ExtractSpec(lines, "nrf52833").lines, 0) == [Write((hi * 256 + lo) * 65536 + v2.address, v2.data)]
  {
    hide Decode, RecordType, Render, BoardIdOf, Intel, ByteAt;
    var lines, wanted := OrdinaryFile(hi, lo, v2, v1), {0x9903, 0x9904, 0x9905, 0x9906};
    OrdinaryLines(hi, lo, v2, v1);
    assert RadioNames.Lower("nrf52833")[..5] == "nrf52";
    BoardIdsByChip("nrf52833");
    assert IsUniversalHex(lines) by {
      assert IsStart(lines[1]);
    }
    OrdinaryMeaning(lines, hi, lo, v2, v1);
    NoImageIffNothingToWrite(lines, "nrf52833");
    ExtractedImageIsTheWantedImage(lines, "nrf52833", 0);
  }

  lemma OrdinaryMeaning(lines: seq<string>, hi: Byte, lo: Byte, v2: Record, v1: Record)
    requires |lines| == 6 && v2.kind == 0x0D && v1.kind == 0x00 && (forall i :: 0 <= i < 6 ==> Decode(lines[i]).Some?)
    requires Decode(lines[0]).value == Record(0, 0x04, [hi, lo]) && Decode(lines[3]).value == Record(0, 0x04, [hi, lo])
    requires Decode(lines[1]).value.kind == 0x0A && IsStart(lines[1]) && BoardIdOf(lines[1]) == Some(0x9903)
    requires Decode(lines[4]).value.kind == 0x0A && IsStart(lines[4]) && BoardIdOf(lines[4]) == Some(0x9900)
    requires Decode(lines[2]).value == v2 && Decode(lines[5]).value == v1
    ensures Universal(lines, 0, None, {0x9903, 0x9904, 0x9905, 0x9906}) == [Write((hi * 256 + lo) * 65536 + v2.address, v2.data)]
    ensures SelfContained(lines, None, false, false, {0x9903, 0x9904, 0x9905, 0x9906})
  {
    hide Decode, RecordType, BoardIdOf;
    var wanted := {0x9903, 0x9904, 0x9905, 0x9906};
    var base := (hi * 256 + lo) * 65536;
    var l1, l2, l3, l4, l5 := lines[1..], lines[2..], lines[3..], lines[4..], lines[5..];
    assert l1[1..] == l2 && l2[1..] == l3 && l3[1..] == l4 && l4[1..] == l5 && l5[1..] == [];
    assert NewBase(Record(0, 0x04, [hi, lo]), 0) == base && NewBase(Record(0, 0x04, [hi, lo]), base) == base;
    assert Universal(l5, base, Some(0x9900), wanted) == [];
    assert Universal(l4, base, Some(0x9903), wanted) == [];
    assert Universal(l3, base, Some(0x9903), wanted) == [];
    assert Universal(l2, base, Some(0x9903), wanted) == [Write(base + v2.address, v2.data)] + Universal(l3, base, Some(0x9903), wanted);
    assert Universal(l1, base, None, wanted) == Universal(l2, base, Some(0x9903), wanted);
    assert SelfContained(l5, Some(0x9900), true, true, wanted);
    assert SelfContained(l4, Some(0x9903), true, true, wanted);
    assert SelfContained(l3, Some(0x9903), true, false, wanted);
    assert SelfContained(l2, Some(0x9903), true, true, wanted);
    assert SelfContained(l1, None, false, true, wanted);
  }
}
