/** Reducing a micro:bit Universal Hex (one file, several boards) to the Intel HEX image of one chip. */
module UniversalHex {
  import opened Options
  import opened HexRecords
  import RadioNames

  /** The board ID of a block; None before the first Block Start. */
  type BoardId = Option<nat>

  const V1_BOARD_IDS: set<nat> := {0x9900, 0x9901}
  const V2_BOARD_IDS: set<nat> := {0x9903, 0x9904, 0x9905, 0x9906}
  const EOF_LINE := ":00000001FF"

  datatype Extraction =
    | Extracted(lines: seq<string>)
    | NoImage(found: set<nat>)
    | UnknownTarget
    | Malformed

  function BoardIdsForMcu(targetMcu: string): Option<set<nat>> {
    var mcu := RadioNames.Lower(targetMcu);
    if "nrf51" <= mcu then Some(V1_BOARD_IDS) else if "nrf52" <= mcu then Some(V2_BOARD_IDS) else None
  }

  predicate IsStart(line: string) {
    RecordType(line) == Some(BLOCK_START)
  }

  predicate IsLinearBase(line: string) {
    RecordType(line) == Some(EXT_LINEAR_ADDR)
  }

  /** The number in columns 10 to 13 of a Block Start. */
  function BoardIdOf(line: string): BoardId
    requires IsStart(line)
  {
    ParseHex(line[9..if |line| < 13 then |line| else 13])
  }

  predicate Wants(wanted: set<nat>, id: BoardId) {
    id.Some? && id.value in wanted
  }

  predicate IsUniversalHex(lines: seq<string>) {
    exists i :: 0 <= i < |lines| && IsStart(lines[i])
  }

  /** A line is fine if it does not look like a record at all, or is a valid one. */
  predicate WellFormed(line: string) {
    RecordType(line).None? || Decode(line).Some?
  }

  predicate AllWellFormed(lines: seq<string>) {
    forall i :: 0 <= i < |lines| ==> WellFormed(lines[i])
  }

  // ----- the specification: one pass with one line of lookahead -----

  /** What a line of a wanted block contributes. */
  function Keep(line: string): seq<string> {
    match RecordType(line)
    case None => []
    case Some(t) =>
      if t == CUSTOM_DATA then (match Retype(line, DATA) case None => [] case Some(l) => [l])
      else if t in {BLOCK_END, PADDED_DATA, OTHER_DATA, EOF} then []
      else [line]
  }

  function KeepAll(block: seq<string>): seq<string> {
    if block == [] then [] else KeepAll(block[..|block| - 1]) + Keep(block[|block| - 1])
  }

  function Filter(block: seq<string>, id: BoardId, wanted: set<nat>): seq<string> {
    if Wants(wanted, id) then KeepAll(block) else []
  }

  /** The board in force after the run of Block Starts at the front of the lines. */
  function IdAfterStarts(lines: seq<string>, id: BoardId): BoardId {
    if lines != [] && IsStart(lines[0]) then IdAfterStarts(lines[1..], BoardIdOf(lines[0])) else id
  }

  /** Whose block the first line belongs to: a linear base directly before a Block Start belongs to the block it opens. */
  function Owner(lines: seq<string>, id: BoardId): BoardId
    requires lines != []
  {
    if IsLinearBase(lines[0]) && |lines| > 1 && IsStart(lines[1]) then IdAfterStarts(lines[1..], id) else id
  }

  /** A line's contribution when it belongs to board id. */
  function Kept(line: string, id: BoardId, wanted: set<nat>): seq<string> {
    if Wants(wanted, id) then Keep(line) else []
  }

  function Select(lines: seq<string>, id: BoardId, wanted: set<nat>): seq<string> {
    if lines == [] then []
    else if IsStart(lines[0]) then Select(lines[1..], BoardIdOf(lines[0]), wanted)
    else Kept(lines[0], Owner(lines, id), wanted) + Select(lines[1..], id, wanted)
  }

  function BoardsIn(lines: seq<string>): set<nat> {
    set i | 0 <= i < |lines| && IsStart(lines[i]) && BoardIdOf(lines[i]).Some? :: BoardIdOf(lines[i]).value
  }

  predicate HasData(lines: seq<string>) {
    exists i :: 0 <= i < |lines| && RecordType(lines[i]) == Some(DATA)
  }

  /** A custom data record whose hex text cannot be read. */
  predicate CannotRetype(line: string) {
    RecordType(line) == Some(CUSTOM_DATA) && Retype(line, DATA).None?
  }

  /** The source raises ValueError: a Block Start without a board ID, or unreadable custom data of a wanted board. */
  predicate Unreadable(lines: seq<string>, id: BoardId, wanted: set<nat>) {
    lines != [] &&
    if IsStart(lines[0]) then BoardIdOf(lines[0]).None? || Unreadable(lines[1..], BoardIdOf(lines[0]), wanted)
    else (Wants(wanted, id) && CannotRetype(lines[0])) || Unreadable(lines[1..], id, wanted)
  }

  function ExtractSpec(lines: seq<string>, targetMcu: string): Extraction {
    match BoardIdsForMcu(targetMcu)
    case None => UnknownTarget
    case Some(wanted) =>
      var kept := Select(lines, None, wanted);
      if Unreadable(lines, None, wanted) then Malformed
      else if HasData(kept) then Extracted(kept + [EOF_LINE]) else NoImage(BoardsIn(lines))
  }

  // ----- the source's two passes -----

  datatype Block = Block(id: BoardId, lines: seq<string>)

  /** The kept lines of complete blocks. */
  ghost function FilterBlocks(blocks: seq<Block>, wanted: set<nat>): seq<string> {
    if blocks == [] then []
    else
      var last := blocks[|blocks| - 1];
      FilterBlocks(blocks[..|blocks| - 1], wanted) + Filter(last.lines, last.id, wanted)
  }

  /** What the open block and the lines still to come will contribute. */
  ghost function Outlook(current: seq<string>, id: BoardId, rest: seq<string>, wanted: set<nat>): seq<string> {
    var n := |current|;
    if n > 0 && IsLinearBase(current[n - 1]) && rest != [] && IsStart(rest[0])
    then Filter(current[..n - 1], id, wanted) + Kept(current[n - 1], IdAfterStarts(rest, id), wanted) + Select(rest, id, wanted)
    else Filter(current, id, wanted) + Select(rest, id, wanted)
  }

  ghost function BlockIds(blocks: seq<Block>, id: BoardId): set<nat> {
    (set b | b in blocks && b.id.Some? :: b.id.value) + (if id.Some? then {id.value} else {})
  }

  lemma FilterAppended(block: seq<string>, line: string, id: BoardId, wanted: set<nat>)
    ensures Filter(block + [line], id, wanted) == Filter(block, id, wanted) + Kept(line, id, wanted)
    ensures Filter([], id, wanted) == []
  {
    assert (block + [line])[..|block|] == block;
  }

  lemma BoardsInAppended(lines: seq<string>, line: string)
    ensures BoardsIn(lines + [line])
            == BoardsIn(lines) + (if IsStart(line) && BoardIdOf(line).Some? then {BoardIdOf(line).value} else {})
  {
    var all := lines + [line];
    forall id | id in BoardsIn(lines) ensures id in BoardsIn(all) {
      var i :| 0 <= i < |lines| && IsStart(lines[i]) && BoardIdOf(lines[i]) == Some(id);
      assert all[i] == lines[i];
    }
    if IsStart(line) && BoardIdOf(line).Some? {
      assert all[|lines|] == line;
    }
  }

  lemma BlockIdsAppended(blocks: seq<Block>, b: Block, id: BoardId)
    ensures BlockIds(blocks + [b], id) == BlockIds(blocks, b.id) + (if id.Some? then {id.value} else {})
  {
  }

  lemma StartHasBoardId(line: string)
    requires IsStart(line) && WellFormed(line)
    ensures BoardIdOf(line).Some?
  {
    assert forall i :: 1 <= i < |line| ==> line[i] == line[1..][i - 1];
  }

  /** A file of valid records never makes the source raise. */
  lemma {:induction false} WellFormedIsReadable(lines: seq<string>, id: BoardId, wanted: set<nat>)
    requires AllWellFormed(lines)
    ensures !Unreadable(lines, id, wanted)
  {
    hide RecordType, BoardIdOf, Decode, Retype;
    if lines != [] {
      assert AllWellFormed(lines[1..]) by {
        assert forall i :: 0 <= i < |lines[1..]| ==> lines[1..][i] == lines[i + 1];
      }
      assert WellFormed(lines[0]);
      if IsStart(lines[0]) {
        StartHasBoardId(lines[0]);
        WellFormedIsReadable(lines[1..], BoardIdOf(lines[0]), wanted);
      } else {
        if Decode(lines[0]).Some? {
          RetypeKeepsTheRest(lines[0], DATA);
        }
        WellFormedIsReadable(lines[1..], id, wanted);
      }
    }
  }

  predicate HasFault(block: seq<string>) {
    exists j :: 0 <= j < |block| && CannotRetype(block[j])
  }

  /** A block for which the second pass raises. */
  predicate IsFaulty(b: Block, wanted: set<nat>) {
    Wants(wanted, b.id) && HasFault(b.lines)
  }

  predicate AnyFaulty(blocks: seq<Block>, wanted: set<nat>) {
    exists b :: 0 <= b < |blocks| && IsFaulty(blocks[b], wanted)
  }

  lemma HasFaultAppended(block: seq<string>, line: string)
    ensures HasFault(block + [line]) <==> HasFault(block) || CannotRetype(line)
    ensures !HasFault([])
  {
    hide CannotRetype;
    if HasFault(block) {
      var j :| 0 <= j < |block| && CannotRetype(block[j]);
      assert (block + [line])[j] == block[j];
    }
    assert (block + [line])[|block|] == line;
  }

  lemma AnyFaultyAppended(blocks: seq<Block>, b: Block, wanted: set<nat>)
    ensures AnyFaulty(blocks + [b], wanted) <==> AnyFaulty(blocks, wanted) || IsFaulty(b, wanted)
  {
    hide IsFaulty;
    if AnyFaulty(blocks, wanted) {
      var k :| 0 <= k < |blocks| && IsFaulty(blocks[k], wanted);
      assert (blocks + [b])[k] == blocks[k];
    }
    assert (blocks + [b])[|blocks|] == b;
  }

  /** A linear base that moves between blocks takes no fault with it. */
  lemma CarryingMovesNoFault(current: seq<string>)
    ensures HasFault(Closed(current)) <==> HasFault(current)
    ensures !HasFault(Carried(current))
  {
    hide RecordType, Retype;
    if Carries(current) {
      var n := |current| - 1;
      HasFaultAppended(current[..n], current[n]);
      HasFaultAppended([], current[n]);
      assert current == current[..n] + [current[n]] && [] + [current[n]] == [current[n]];
    }
  }

  lemma FilterBlocksAppended(blocks: seq<Block>, b: Block, wanted: set<nat>)
    ensures FilterBlocks(blocks + [b], wanted) == FilterBlocks(blocks, wanted) + Filter(b.lines, b.id, wanted)
  {
    assert (blocks + [b])[..|blocks|] == blocks;
  }

  /** Whether the last line of the open block moves on to the block being opened. */
  predicate Carries(current: seq<string>) {
    |current| > 0 && IsLinearBase(current[|current| - 1])
  }

  function Closed(current: seq<string>): seq<string> {
    if Carries(current) then current[..|current| - 1] else current
  }

  function Carried(current: seq<string>): seq<string> {
    if Carries(current) then [current[|current| - 1]] else []
  }

  /** The outlook of a lone carried line. */
  lemma OutlookOfOne(last: string, id: BoardId, rest: seq<string>, wanted: set<nat>)
    requires IsLinearBase(last)
    ensures Outlook([last], id, rest, wanted) == Kept(last, IdAfterStarts(rest, id), wanted) + Select(rest, id, wanted)
  {
    hide RecordType, Keep;
    FilterAppended([], last, id, wanted);
    assert [] + [last] == [last] && [last][..0] == [];
    if rest != [] && IsStart(rest[0]) {
      assert Outlook([last], id, rest, wanted) == Filter([], id, wanted) + Kept(last, IdAfterStarts(rest, id), wanted) + Select(rest, id, wanted);
    } else {
      assert IdAfterStarts(rest, id) == id;
    }
  }

  lemma OutlookOfNone(id: BoardId, rest: seq<string>, wanted: set<nat>)
    ensures Outlook([], id, rest, wanted) == Select(rest, id, wanted)
  {
    FilterAppended([], "", id, wanted);
  }

  /** At a Block Start the open block's trailing linear base counts for the board that follows. */
  lemma OutlookAtStart(current: seq<string>, id: BoardId, rest: seq<string>, wanted: set<nat>)
    requires rest != [] && IsStart(rest[0])
    ensures var later := Select(rest[1..], BoardIdOf(rest[0]), wanted);
            var last := if Carries(current) then Kept(current[|current| - 1], IdAfterStarts(rest[1..], BoardIdOf(rest[0])), wanted) else [];
            Outlook(current, id, rest, wanted) == Filter(Closed(current), id, wanted) + (last + later)
  {
    hide RecordType, Keep, KeepAll, Filter, Kept, BoardIdOf;
    assert Select(rest, id, wanted) == Select(rest[1..], BoardIdOf(rest[0]), wanted);
    assert IdAfterStarts(rest, id) == IdAfterStarts(rest[1..], BoardIdOf(rest[0]));
  }

  /** Closing the open block at a Block Start, with a trailing linear base carried over, loses nothing. */
  lemma OpenBlock(current: seq<string>, id: BoardId, rest: seq<string>, wanted: set<nat>)
    requires rest != [] && IsStart(rest[0])
    ensures Outlook(current, id, rest, wanted)
            == Filter(Closed(current), id, wanted) + Outlook(Carried(current), BoardIdOf(rest[0]), rest[1..], wanted)
  {
    hide RecordType, Keep, KeepAll, Filter, Kept, BoardIdOf, Outlook, Select;
    OutlookAtStart(current, id, rest, wanted);
    if Carries(current) {
      OutlookOfOne(current[|current| - 1], BoardIdOf(rest[0]), rest[1..], wanted);
    } else {
      OutlookOfNone(BoardIdOf(rest[0]), rest[1..], wanted);
    }
  }

  /** Moving a line that is no Block Start into the open block changes nothing. */
  lemma AppendToBlock(current: seq<string>, id: BoardId, rest: seq<string>, wanted: set<nat>)
    requires rest != [] && !IsStart(rest[0])
    ensures Outlook(current, id, rest, wanted) == Outlook(current + [rest[0]], id, rest[1..], wanted)
  {
    hide RecordType, Keep, KeepAll, Filter, Kept, BoardIdOf;
    var line, after := rest[0], rest[1..];
    FilterAppended(current, line, id, wanted);
    assert (current + [line])[..|current|] == current && (current + [line])[|current|] == line;
    assert Select(rest, id, wanted) == Kept(line, Owner(rest, id), wanted) + Select(after, id, wanted);
    assert Outlook(current, id, rest, wanted) == Filter(current, id, wanted) + Select(rest, id, wanted);
    if IsLinearBase(line) && after != [] && IsStart(after[0]) {
      assert rest[1] == after[0];
    } else {
      assert Owner(rest, id) == id;
    }
  }

  /** Progress of the grouping pass: nothing selected is lost, every board is noted, every fault is still to be met. */
  ghost predicate Grouping(blocks: seq<Block>, id: BoardId, current: seq<string>, lines: seq<string>, i: nat, wanted: set<nat>)
    requires i <= |lines|
  {
    && FilterBlocks(blocks, wanted) + Outlook(current, id, lines[i..], wanted) == Select(lines, None, wanted)
    && BlockIds(blocks, id) == BoardsIn(lines[..i])
    && (Unreadable(lines, None, wanted)
        <==> AnyFaulty(blocks, wanted) || IsFaulty(Block(id, current), wanted) || Unreadable(lines[i..], id, wanted))
  }

  lemma OutlookAppended(blocks: seq<Block>, id: BoardId, current: seq<string>, rest: seq<string>, wanted: set<nat>)
    requires rest != [] && IsStart(rest[0])
    ensures FilterBlocks(blocks, wanted) + Outlook(current, id, rest, wanted)
            == FilterBlocks(blocks + [Block(id, Closed(current))], wanted) + Outlook(Carried(current), BoardIdOf(rest[0]), rest[1..], wanted)
  {
    hide *;
    OpenBlock(current, id, rest, wanted);
    FilterBlocksAppended(blocks, Block(id, Closed(current)), wanted);
  }

  lemma GroupingOpens(blocks: seq<Block>, id: BoardId, current: seq<string>, lines: seq<string>, i: nat, wanted: set<nat>)
    requires i < |lines| && Grouping(blocks, id, current, lines, i, wanted)
    requires IsStart(lines[i]) && BoardIdOf(lines[i]).Some?
    ensures Grouping(blocks + [Block(id, Closed(current))], BoardIdOf(lines[i]), Carried(current), lines, i + 1, wanted)
  {
    hide Outlook, FilterBlocks, Select, BlockIds, BoardsIn, RecordType, BoardIdOf, HasFault, AnyFaulty, Closed, Carried;
    var rest, b := lines[i..], Block(id, Closed(current));
    assert rest[0] == lines[i] && rest[1..] == lines[i + 1..] && lines[..i + 1] == lines[..i] + [lines[i]];
    OutlookAppended(blocks, id, current, rest, wanted);
    BoardsInAppended(lines[..i], lines[i]);
    BlockIdsAppended(blocks, b, BoardIdOf(lines[i]));
    CarryingMovesNoFault(current);
    AnyFaultyAppended(blocks, b, wanted);
  }

  lemma GroupingAppends(blocks: seq<Block>, id: BoardId, current: seq<string>, lines: seq<string>, i: nat, wanted: set<nat>)
    requires i < |lines| && Grouping(blocks, id, current, lines, i, wanted)
    requires !IsStart(lines[i])
    ensures Grouping(blocks, id, current + [lines[i]], lines, i + 1, wanted)
  {
    hide Outlook, FilterBlocks, Select, BlockIds, BoardsIn, RecordType, HasFault, AnyFaulty, CannotRetype;
    var rest := lines[i..];
    assert rest[0] == lines[i] && rest[1..] == lines[i + 1..] && lines[..i + 1] == lines[..i] + [lines[i]];
    AppendToBlock(current, id, rest, wanted);
    BoardsInAppended(lines[..i], lines[i]);
    HasFaultAppended(current, lines[i]);
  }

  /** A Block Start whose board ID cannot be read ends the pass. */
  lemma GroupingFails(blocks: seq<Block>, id: BoardId, current: seq<string>, lines: seq<string>, i: nat, wanted: set<nat>)
    requires i < |lines| && Grouping(blocks, id, current, lines, i, wanted)
    requires IsStart(lines[i]) && BoardIdOf(lines[i]).None?
    ensures Unreadable(lines, None, wanted)
  {
    hide Outlook, FilterBlocks, Select, BlockIds, BoardsIn, RecordType, HasFault, AnyFaulty, CannotRetype, BoardIdOf;
    assert lines[i..][0] == lines[i];
  }

  lemma GroupingStarts(lines: seq<string>, wanted: set<nat>)
    ensures Grouping([], None, [], lines, 0, wanted)
  {
    hide RecordType;
    assert lines[0..] == lines && lines[..0] == [];
    FilterAppended([], "", None, wanted);
  }

  lemma OutlookAtEnd(current: seq<string>, id: BoardId, wanted: set<nat>)
    ensures Outlook(current, id, [], wanted) == Filter(current, id, wanted)
  {
    hide RecordType, Keep, KeepAll;
  }

  lemma GroupingEnds(blocks: seq<Block>, id: BoardId, current: seq<string>, lines: seq<string>, wanted: set<nat>)
    requires Grouping(blocks, id, current, lines, |lines|, wanted)
    ensures FilterBlocks(blocks + [Block(id, current)], wanted) == Select(lines, None, wanted)
    ensures BlockIds(blocks + [Block(id, current)], None) == BoardsIn(lines)
    ensures AnyFaulty(blocks + [Block(id, current)], wanted) <==> Unreadable(lines, None, wanted)
  {
    hide RecordType, Outlook, Filter, FilterBlocks, BlockIds, BoardsIn, Select, HasFault, AnyFaulty;
    assert lines[|lines|..] == [] && lines[..|lines|] == lines;
    OutlookAtEnd(current, id, wanted);
    FilterBlocksAppended(blocks, Block(id, current), wanted);
    BlockIdsAppended(blocks, Block(id, current), None);
    AnyFaultyAppended(blocks, Block(id, current), wanted);
  }

  method GroupIntoBlocks(lines: seq<string>, ghost wanted: set<nat>) returns (r: Option<seq<Block>>)
    ensures r.None? ==> Unreadable(lines, None, wanted)
    ensures r.Some? ==> FilterBlocks(r.value, wanted) == Select(lines, None, wanted)
    ensures r.Some? ==> BlockIds(r.value, None) == BoardsIn(lines)
    ensures r.Some? ==> (AnyFaulty(r.value, wanted) <==> Unreadable(lines, None, wanted))
  {
    var blocks: seq<Block> := [];
    var currentId: BoardId := None;
    var current: seq<string> := [];
    hide Grouping, Select, FilterBlocks, BlockIds, BoardsIn, RecordType, Decode, BoardIdOf, AnyFaulty, Unreadable;
    GroupingStarts(lines, wanted);
    for i := 0 to |lines|
      invariant Grouping(blocks, currentId, current, lines, i, wanted)
    {
      var line := lines[i];
      if IsStart(line) {
        var carried: seq<string> := [];
        var id := BoardIdOf(line);
        if id.None? {
          GroupingFails(blocks, currentId, current, lines, i, wanted);
          return None;
        }
        GroupingOpens(blocks, currentId, current, lines, i, wanted);
        if |current| > 0 && IsLinearBase(current[|current| - 1]) {
          carried := [current[|current| - 1]];
          current := current[..|current| - 1];
        }
        blocks := blocks + [Block(currentId, current)];
        currentId := id;
        current := carried;
      } else {
        GroupingAppends(blocks, currentId, current, lines, i, wanted);
        current := current + [line];
      }
    }
    GroupingEnds(blocks, currentId, current, lines, wanted);
    return Some(blocks + [Block(currentId, current)]);
  }

  /** The second pass over one wanted block. */
  method KeepBlock(block: seq<string>) returns (r: Option<seq<string>>)
    ensures r.None? <==> HasFault(block)
    ensures r.Some? ==> r.value == KeepAll(block)
  {
    hide RecordType, Retype, Decode;
    var out: seq<string> := [];
    for j := 0 to |block|
      invariant out == KeepAll(block[..j])
      invariant forall i :: 0 <= i < j ==> !CannotRetype(block[i])
    {
      var line := block[j];
      var rtype := RecordType(line);
      assert block[..j + 1][..j] == block[..j];
      if rtype == Some(CUSTOM_DATA) {
        RecordIsLongEnough(line);
        var retyped := RetypeLine(line, DATA);
        if retyped.None? {
          assert CannotRetype(block[j]);
          return None;
        }
        out := out + [retyped.value];
      } else if rtype.None? || rtype.value in {BLOCK_END, PADDED_DATA, OTHER_DATA, EOF} {
        continue;
      } else {
        out := out + [line];
      }
    }
    assert block[..|block|] == block;
    return Some(out);
  }

  lemma RecordIsLongEnough(line: string)
    requires RecordType(line).Some?
    ensures |line| >= 11
  {
  }

  lemma FoundBoards(blocks: seq<Block>)
    ensures (set b | b in blocks && b.id.Some? :: b.id.value) == BlockIds(blocks, None)
  {
  }

  method ExtractForMcu(lines: seq<string>, targetMcu: string) returns (r: Extraction)
    ensures r == ExtractSpec(lines, targetMcu)
  {
    hide Select, BoardsIn, RecordType, KeepAll, BoardIdsForMcu, Unreadable, HasFault, Keep, Retype, Decode, BlockIds;
    var ids := BoardIdsForMcu(targetMcu);
    if ids.None? {
      return UnknownTarget;
    }
    var wanted := ids.value;
    var grouped := GroupIntoBlocks(lines, wanted);
    if grouped.None? {
      return Malformed;
    }
    var blocks := grouped.value;
    var out: seq<string> := [];
    for b := 0 to |blocks|
      invariant out == FilterBlocks(blocks[..b], wanted)
      invariant forall k :: 0 <= k < b ==> !IsFaulty(blocks[k], wanted)
    {
      assert blocks[..b + 1] == blocks[..b] + [blocks[b]];
      FilterBlocksAppended(blocks[..b], blocks[b], wanted);
      if !Wants(wanted, blocks[b].id) {
        continue;
      }
      var kept := KeepBlock(blocks[b].lines);
      if kept.None? {
        assert IsFaulty(blocks[b], wanted);
        return Malformed;
      }
      out := out + kept.value;
    }
    assert blocks[..|blocks|] == blocks;
    if !(exists i :: 0 <= i < |out| && RecordType(out[i]) == Some(DATA)) {
      var found := set b | b in blocks && b.id.Some? :: b.id.value;
      FoundBoards(blocks);
      return NoImage(found);
    }
    return Extracted(out + [EOF_LINE]);
  }
}
