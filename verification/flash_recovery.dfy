/** Flashing a board through pyOCD: the watchdog around each command and the recovery controller above it. */
module FlashRecovery {
  import opened Options
  import RadioNames
  import UniversalHex
  import UniversalHexMeaning

  // ----- failure signatures -----

  const PERMISSION_SIGNATURES: seq<string> := ["access denied", "permission denied", "insufficient permissions", "udev rule", "errno 13"]

  const TRANSIENT_SIGNATURES: seq<string> :=
    ["timeout reading from probe", "probe timeout", "communication failure", "communication fault", "transfer fault",
     "transfer error", "dapaccess", "unable to claim interface"]

  const LOCKED_SIGNATURES: seq<string> :=
    ["0x67", "flash erase sector failure", "approtect", "access port protection", "authentication failed", "not authenticated",
     "device is locked", "target is locked"]

  predicate OccursAt(needle: string, text: string, i: nat) {
    i + |needle| <= |text| && text[i..i + |needle|] == needle
  }

  predicate Occurs(needle: string, text: string) {
    exists i :: 0 <= i <= |text| && OccursAt(needle, text, i)
  }

  /** A text occurs in another exactly when it is a part of it. */
  lemma OccursIffPart(needle: string, text: string)
    ensures Occurs(needle, text) <==> exists before, after :: text == before + needle + after
  {
    if Occurs(needle, text) {
      var i :| 0 <= i <= |text| && OccursAt(needle, text, i);
      assert text == text[..i] + needle + text[i + |needle|..];
    }
    if exists before, after :: text == before + needle + after {
      var before, after :| text == before + needle + after;
      assert text[|before|..|before| + |needle|] == needle;
      assert OccursAt(needle, text, |before|);
    }
  }

  /** The output names a signature exactly when, in lower case, it holds one of them; so its case does not matter. */
  lemma NamesInAnyCase(signatures: seq<string>, text: string)
    ensures Names(signatures, text)
            <==> exists k, before, after :: 0 <= k < |signatures| && RadioNames.Lower(text) == before + signatures[k] + after
    ensures Names(signatures, RadioNames.Lower(text)) <==> Names(signatures, text)
  {
    hide Occurs;
    assert RadioNames.Lower(RadioNames.Lower(text)) == RadioNames.Lower(text);
    forall k | 0 <= k < |signatures|
      ensures Occurs(signatures[k], RadioNames.Lower(text))
              <==> exists before, after :: RadioNames.Lower(text) == before + signatures[k] + after
    {
      OccursIffPart(signatures[k], RadioNames.Lower(text));
    }
  }

  predicate Names(signatures: seq<string>, text: string) {
    exists k :: 0 <= k < |signatures| && Occurs(signatures[k], RadioNames.Lower(text))
  }

  /** "\n".join(lines) */
  function Join(lines: seq<string>): string {
    if lines == [] then [] else if |lines| == 1 then lines[0] else lines[0] + "\n" + Join(lines[1..])
  }

  predicate IsOneLine(s: string) {
    '\n' !in s
  }

  lemma LowerOfConcat(a: string, b: string)
    ensures RadioNames.Lower(a + b) == RadioNames.Lower(a) + RadioNames.Lower(b)
  {
  }

  /** An occurrence of a text without newlines lies on one side of a newline. */
  lemma OccurrenceAvoidsNewline(needle: string, text: string, i: nat, p: nat)
    requires IsOneLine(needle) && OccursAt(needle, text, i) && p < |text| && text[p] == '\n'
    ensures p < i || i + |needle| <= p
  {
    forall q | i <= q < i + |needle| ensures text[q] in needle {
      assert needle[q - i] == text[i..i + |needle|][q - i];
    }
  }

  lemma OccursWithin(needle: string, before: string, text: string, after: string)
    requires Occurs(needle, text)
    ensures Occurs(needle, before + text + after)
  {
    var t := before + text + after;
    var i :| 0 <= i <= |text| && OccursAt(needle, text, i);
    assert t[|before|..|before| + |text|] == text;
    assert t[|before| + i..|before| + i + |needle|] == text[i..i + |needle|];
    assert OccursAt(needle, t, |before| + i);
  }

  lemma OccursOnOneSide(needle: string, a: string, b: string, i: nat)
    requires IsOneLine(needle) && OccursAt(needle, a + "\n" + b, i)
    ensures Occurs(needle, a) || Occurs(needle, b)
  {
    var t := a + "\n" + b;
    OccurrenceAvoidsNewline(needle, t, i, |a|);
    if i <= |a| {
      assert a == t[..|a|];
      assert t[..|a|][i..i + |needle|] == t[i..i + |needle|];
      assert OccursAt(needle, a, i);
    } else {
      var k := i - |a| - 1;
      assert b == t[|a| + 1..];
      assert t[|a| + 1..][k..k + |needle|] == t[i..i + |needle|];
      assert OccursAt(needle, b, k);
    }
  }

  lemma OccursBesideNewline(needle: string, a: string, b: string)
    requires IsOneLine(needle)
    ensures Occurs(needle, a + "\n" + b) <==> Occurs(needle, a) || Occurs(needle, b)
  {
    var t := a + "\n" + b;
    if Occurs(needle, t) {
      var i :| 0 <= i <= |t| && OccursAt(needle, t, i);
      OccursOnOneSide(needle, a, b, i);
    }
    if Occurs(needle, a) {
      OccursWithin(needle, [], a, "\n" + b);
      assert [] + a + ("\n" + b) == t;
    }
    if Occurs(needle, b) {
      OccursWithin(needle, a + "\n", b, []);
      assert (a + "\n") + b + [] == t;
    }
  }

  /** The joined output names a signature exactly when one of its lines does. */
  lemma {:induction false} JoinedNamesIffALineDoes(signatures: seq<string>, lines: seq<string>)
    requires lines != []
    requires forall k :: 0 <= k < |signatures| ==> IsOneLine(signatures[k])
    ensures Names(signatures, Join(lines)) <==> exists i :: 0 <= i < |lines| && Names(signatures, lines[i])
  {
    if |lines| > 1 {
      hide Occurs;
      var a, rest := lines[0], Join(lines[1..]);
      JoinedNamesIffALineDoes(signatures, lines[1..]);
      LowerOfConcat(a + "\n", rest);
      LowerOfConcat(a, "\n");
      assert RadioNames.Lower("\n") == "\n";
      assert RadioNames.Lower(Join(lines)) == RadioNames.Lower(a) + "\n" + RadioNames.Lower(rest);
      forall k | 0 <= k < |signatures|
        ensures Occurs(signatures[k], RadioNames.Lower(Join(lines)))
                <==> Occurs(signatures[k], RadioNames.Lower(a)) || Occurs(signatures[k], RadioNames.Lower(rest))
      {
        OccursBesideNewline(signatures[k], RadioNames.Lower(a), RadioNames.Lower(rest));
      }
      assert Names(signatures, Join(lines)) <==> Names(signatures, a) || Names(signatures, rest);
      assert (exists i :: 0 <= i < |lines| && Names(signatures, lines[i]))
             <==> Names(signatures, a) || exists i :: 0 <= i < |lines[1..]| && Names(signatures, lines[1..][i]) by {
        hide Names;
        if i :| 0 <= i < |lines| && Names(signatures, lines[i]) {
          if i > 0 {
            assert lines[1..][i - 1] == lines[i];
          }
        }
        if i :| 0 <= i < |lines[1..]| && Names(signatures, lines[1..][i]) {
          assert lines[i + 1] == lines[1..][i];
        }
      }
    }
  }

  lemma SignaturesAreOneLine()
    ensures forall k :: 0 <= k < |PERMISSION_SIGNATURES| ==> IsOneLine(PERMISSION_SIGNATURES[k])
  {
  }

  // ----- one command under the watchdog -----

  /** What the output queue delivers: a line, or nothing for the whole no-progress window. The end of the feed is end of output. */
  datatype Item = Output(line: string) | Silence

  datatype Stop = EndOfOutput | Hung | PermissionDenied

  datatype Result = Result(rc: int, lines: seq<string>)

  /** Relays lines until the output ends, stalls, or names a permission problem; a killed command never reports success. */
  method RunStreamed(feed: seq<Item>, exitCode: int) returns (r: Result, stop: Stop)
    requires forall i :: 0 <= i < |feed| && feed[i].Output? ==> IsOneLine(feed[i].line)
    ensures |r.lines| <= |feed| && forall i :: 0 <= i < |r.lines| ==> feed[i] == Output(r.lines[i])
    ensures stop.EndOfOutput? ==> |r.lines| == |feed|
    ensures stop.Hung? ==> |r.lines| < |feed| && feed[|r.lines|] == Silence
    ensures stop.PermissionDenied? <==> Names(PERMISSION_SIGNATURES, Join(r.lines))
    ensures stop.PermissionDenied? ==> r.lines != [] && Names(PERMISSION_SIGNATURES, r.lines[|r.lines| - 1])
    ensures if stop.EndOfOutput? then r.rc == exitCode else r.rc == (if exitCode == 0 then 1 else exitCode)
    ensures stop.PermissionDenied? ==> r.rc != 0
  {
    hide Names, Join;
    var lines: seq<string> := [];
    stop := EndOfOutput;
    var i := 0;
    while i < |feed|
      invariant 0 <= i <= |feed| && |lines| == i && stop == EndOfOutput
      invariant forall j :: 0 <= j < |lines| ==> feed[j] == Output(lines[j]) && !Names(PERMISSION_SIGNATURES, lines[j])
      decreases |feed| - i
    {
      if feed[i].Silence? {
        stop := Hung;
        break;
      }
      lines := lines + [feed[i].line];
      i := i + 1;
      if Names(PERMISSION_SIGNATURES, feed[i - 1].line) {
        stop := PermissionDenied;
        break;
      }
    }
    DeniedIffALineIs(lines);
    var rc := exitCode;
    if stop != EndOfOutput && rc == 0 {
      rc := 1;
    }
    r := Result(rc, lines);
  }

  lemma DeniedIffALineIs(lines: seq<string>)
    ensures Names(PERMISSION_SIGNATURES, Join(lines)) <==> exists i :: 0 <= i < |lines| && Names(PERMISSION_SIGNATURES, lines[i])
  {
    SignaturesAreOneLine();
    if lines == [] {
      NothingIsNamed();
    } else {
      JoinedNamesIffALineDoes(PERMISSION_SIGNATURES, lines);
    }
  }

  lemma NothingIsNamed()
    ensures !Names(PERMISSION_SIGNATURES, [])
  {
    forall k | 0 <= k < |PERMISSION_SIGNATURES| ensures !Occurs(PERMISSION_SIGNATURES[k], []) {
      assert |PERMISSION_SIGNATURES[k]| > 0;
    }
  }

  // ----- the recovery controller -----

  datatype Command = Flash(hex: seq<string>) | MassErase | Reset

  /** A command that was run, and how it ended. */
  datatype Step = Step(command: Command, rc: int, output: string)

  datatype Decision = Do(command: Command) | Return(rc: int)

  /** What the controller does after some steps: at most one blind retry, one mass erase and only for a locked part, then reset. */
  function Next(h: seq<Step>, hex: seq<string>): Decision {
    if h == [] then Do(Flash(hex))
    else
      var last := h[|h| - 1];
      match last.command
      case Reset => Return(last.rc)
      case MassErase => if last.rc != 0 then Return(last.rc) else Do(Flash(hex))
      case Flash(_) =>
        if last.rc == 0 then Do(Reset)
        else if |h| == 1 && Names(PERMISSION_SIGNATURES, last.output) then Return(last.rc)
        else if |h| == 1 && Names(TRANSIENT_SIGNATURES, last.output) then Do(Flash(hex))
        else if |h| > 1 && h[|h| - 2].command == MassErase then Return(last.rc)
        else if Names(LOCKED_SIGNATURES, last.output) then Do(MassErase)
        else Return(last.rc)
  }

  /** The steps of a controller: each command is the one decided from the steps before it. */
  ghost predicate Follows(h: seq<Step>, hex: seq<string>) {
    forall i :: 0 <= i < |h| ==> Next(h[..i], hex) == Do(h[i].command)
  }

  ghost predicate FlashSucceeded(s: Step) {
    s.command.Flash? && s.rc == 0
  }

  /** An erase went through and no flash has since. */
  ghost predicate LeftBlank(h: seq<Step>) {
    exists i :: 0 <= i < |h| && h[i].command == MassErase && h[i].rc == 0 && forall j :: i < j < |h| ==> !FlashSucceeded(h[j])
  }

  predicate Failed(s: Step) {
    s.rc != 0
  }

  /** The only orders of commands there are: flash, maybe a retry, maybe erase and flash again, then reset. */
  predicate Shape(h: seq<Step>, hex: seq<string>) {
    && |h| <= 5
    && (|h| > 0 ==> h[0].command == Flash(hex))
    && (|h| > 1 ==> h[1].command == (if !Failed(h[0]) then Reset else if Names(TRANSIENT_SIGNATURES, h[0].output) then Flash(hex) else MassErase))
    && (|h| > 1 && h[1].command == MassErase ==> Names(LOCKED_SIGNATURES, h[0].output))
    && (|h| > 1 && Failed(h[0]) ==> !Names(PERMISSION_SIGNATURES, h[0].output))
    && (|h| > 2 ==> h[1].command != Reset)
    && (|h| > 2 && h[1].command == Flash(hex) ==>
          h[2].command == (if Failed(h[1]) then MassErase else Reset) && (Failed(h[1]) ==> Names(LOCKED_SIGNATURES, h[1].output)))
    && (|h| > 2 && h[1].command == MassErase ==> !Failed(h[1]) && h[2].command == Flash(hex))
    && (|h| > 3 ==> h[2].command != Reset && !Failed(h[2]) && h[3].command == (if h[2].command == MassErase then Flash(hex) else Reset))
    && (|h| > 4 ==> h[2].command == MassErase && !Failed(h[3]) && h[4].command == Reset)
  }

  lemma OneMoreStepKeepsTheShape(h: seq<Step>, hex: seq<string>, s: Step)
    requires Shape(h, hex) && Next(h, hex) == Do(s.command)
    ensures Shape(h + [s], hex)
  {
    hide Names;
    var h' := h + [s];
    assert forall i :: 0 <= i < |h| ==> h'[i] == h[i];
    if |h| == 0 {
    } else if |h| == 1 {
    } else if |h| == 2 {
    } else if |h| == 3 {
    } else if |h| == 4 {
    }
  }

  lemma {:induction false} EveryRunHasTheShape(h: seq<Step>, hex: seq<string>)
    requires Follows(h, hex)
    ensures Shape(h, hex)
  {
    hide Names, Next;
    if h == [] {
      NothingHasTheShape(hex);
    } else {
      hide Shape;
      var init := h[..|h| - 1];
      assert forall i :: 0 <= i < |init| ==> init[..i] == h[..i];
      EveryRunHasTheShape(init, hex);
      OneMoreStepKeepsTheShape(init, hex, h[|h| - 1]);
      assert init + [h[|h| - 1]] == h;
    }
  }

  lemma NothingHasTheShape(hex: seq<string>)
    ensures Shape([], hex)
  {
  }

  /** A finished run leaves the board blank exactly when its last two steps are a successful erase and a failed flash. */
  lemma BlankIffFlashFailedAfterErase(h: seq<Step>, hex: seq<string>)
    requires Shape(h, hex) && (h == [] || Next(h, hex).Return?)
    ensures LeftBlank(h) <==> |h| > 1 && h[|h| - 2].command == MassErase && h[|h| - 2].rc == 0 && Failed(h[|h| - 1])
  {
    hide Names;
    var n := |h|;
    if n > 1 && h[n - 2].command == MassErase && h[n - 2].rc == 0 && Failed(h[n - 1]) {
      assert forall j :: n - 2 < j < n ==> !FlashSucceeded(h[j]);
    }
    if i :| 0 <= i < n && h[i].command == MassErase && h[i].rc == 0 && forall j :: i < j < n ==> !FlashSucceeded(h[j]) {
      assert i + 1 < n ==> !FlashSucceeded(h[i + 1]);
    }
  }

  /** For every behaviour of pyOCD: at most one mass erase, only right after a flash that failed as locked; 0 is returned only
      when the last flash and the reset after it both returned 0; a permission failure on the first flash ends the run. */
  lemma RecoveryIsSafe(h: seq<Step>, hex: seq<string>, rc: int)
    requires Follows(h, hex) && Next(h, hex) == Return(rc)
    ensures forall i :: 0 <= i < |h| && h[i].command == MassErase ==>
              i > 0 && h[i - 1].command.Flash? && h[i - 1].rc != 0 && Names(LOCKED_SIGNATURES, h[i - 1].output)
    ensures forall i, j :: 0 <= i < j < |h| && h[i].command == MassErase ==> h[j].command != MassErase
    ensures rc == h[|h| - 1].rc
    ensures rc == 0 <==> |h| > 1 && h[|h| - 1].command == Reset && h[|h| - 1].rc == 0 && FlashSucceeded(h[|h| - 2])
    ensures rc == 0 ==> !LeftBlank(h)
    ensures h[0].rc != 0 && Names(PERMISSION_SIGNATURES, h[0].output) ==> |h| == 1
  {
    hide Names;
    EveryRunHasTheShape(h, hex);
    BlankIffFlashFailedAfterErase(h, hex);
  }

  /** And for every behaviour of pyOCD what can be recovered is tried: a finished run ends in a reset or a failure; a flash that failed
      as locked is followed by a mass erase, unless one was made already or the first flash named a permission problem; a first flash that
      failed transiently and not for lack of permission is retried; a successful erase is followed by a flash, a successful flash by a reset. */
  lemma RecoveryIsTried(h: seq<Step>, hex: seq<string>, rc: int)
    requires Follows(h, hex) && Next(h, hex) == Return(rc)
    ensures h != [] && h[0].command == Flash(hex)
    ensures var last := h[|h| - 1];
            && (last.command == Reset || last.rc != 0)
            && (last.command.Flash? && Names(LOCKED_SIGNATURES, last.output) ==>
                  (exists i :: 0 <= i < |h| && h[i].command == MassErase) || (|h| == 1 && Names(PERMISSION_SIGNATURES, last.output)))
            && (|h| == 1 ==> Names(PERMISSION_SIGNATURES, last.output)
                             || !(Names(TRANSIENT_SIGNATURES, last.output) || Names(LOCKED_SIGNATURES, last.output)))
    ensures forall i :: 0 <= i < |h| - 1 && h[i].command.Flash? && h[i].rc == 0 ==> h[i + 1].command == Reset
    ensures forall i :: 0 <= i < |h| - 1 && h[i].command == MassErase ==> h[i].rc == 0 && h[i + 1].command == Flash(hex)
    ensures |h| > 1 && h[0].rc != 0 && Names(TRANSIENT_SIGNATURES, h[0].output) ==> h[1].command == Flash(hex)
  {
    hide Names, Follows;
    EveryRunHasTheShape(h, hex);
    if |h| > 1 && h[|h| - 2].command == MassErase {
      assert h[|h| - 2].command == MassErase;
    }
  }

  /** Runs the controller against an arbitrary pyOCD. The log says "no firmware" exactly when the board was left erased. */
  method FlashHex(hex: seq<string>, hexLoads: bool, permitted: bool) returns (rc: int, h: seq<Step>, noFirmware: bool)
    ensures Follows(h, hex)
    ensures h == [] <==> !hexLoads || !permitted
    ensures if h == [] then rc == 1 else Next(h, hex) == Return(rc)
    ensures noFirmware <==> LeftBlank(h)
  {
    hide Names, Follows;
    NothingRun(hex);
    h := [];
    noFirmware := false;
    if !hexLoads || !permitted {
      return 1, h, false;
    }
    var s := RunCommand(Flash(hex));
    h := Extended(h, hex, s);
    if s.rc != 0 && Names(PERMISSION_SIGNATURES, s.output) {
      Finish(h, hex, s.rc);
      return s.rc, h, false;
    }
    if s.rc != 0 && Names(TRANSIENT_SIGNATURES, s.output) {
      s := RunCommand(Flash(hex));
      h := Extended(h, hex, s);
    }
    if s.rc != 0 && Names(LOCKED_SIGNATURES, s.output) {
      var e := RunCommand(MassErase);
      h := Extended(h, hex, e);
      if e.rc != 0 {
        Finish(h, hex, e.rc);
        return e.rc, h, false;
      }
      s := RunCommand(Flash(hex));
      h := Extended(h, hex, s);
      if s.rc != 0 {
        Finish(h, hex, s.rc);
        return s.rc, h, true;
      }
    } else if s.rc != 0 {
      Finish(h, hex, s.rc);
      return s.rc, h, false;
    }
    s := RunCommand(Reset);
    h := Extended(h, hex, s);
    Finish(h, hex, s.rc);
    return s.rc, h, false;
  }

  lemma NothingRun(hex: seq<string>)
    ensures Follows([], hex) && !LeftBlank([])
  {
  }

  lemma Finish(h: seq<Step>, hex: seq<string>, rc: int)
    requires Follows(h, hex) && h != [] && Next(h, hex) == Return(rc)
    ensures LeftBlank(h) <==> |h| > 1 && h[|h| - 2].command == MassErase && h[|h| - 2].rc == 0 && Failed(h[|h| - 1])
  {
    hide Names, Follows, Next;
    EveryRunHasTheShape(h, hex);
    BlankIffFlashFailedAfterErase(h, hex);
  }

  /** One more step that was decided. */
  function Extended(h: seq<Step>, hex: seq<string>, s: Step): (h': seq<Step>)
    requires Follows(h, hex) && Next(h, hex) == Do(s.command)
    ensures Follows(h', hex) && h' == h + [s]
  {
    assert forall i :: 0 <= i < |h| ==> (h + [s])[..i] == h[..i];
    assert (h + [s])[..|h|] == h;
    h + [s]
  }

  /** Any command may print anything, stall, and exit with any code; output that names a permission problem is never a success. */
  method RunCommand(command: Command) returns (s: Step)
    ensures s.command == command
    ensures Names(PERMISSION_SIGNATURES, s.output) ==> s.rc != 0
  {
    hide Names, Join;
    var feed: seq<string> := *;
    var stalls: bool := *;
    var exitCode: int := *;
    var items := seq(|feed|, i requires 0 <= i < |feed| => Output(OneLine(feed[i]))) + (if stalls then [Silence] else []);
    var r, stop := RunStreamed(items, exitCode);
    s := Step(command, r.rc, Join(r.lines));
  }

  /** The part of a text before its first newline. */
  function OneLine(s: string): (r: string)
    ensures IsOneLine(r) && r <= s
  {
    if s == [] || s[0] == '\n' then [] else [s[0]] + OneLine(s[1..])
  }

  // ----- from the file to the board -----

  lemma OnlyThisHexIsFlashed(h: seq<Step>, hex: seq<string>)
    requires Shape(h, hex)
    ensures forall i :: 0 <= i < |h| && h[i].command.Flash? ==> h[i].command == Flash(hex)
  {
    hide Names;
  }

  /** flash_hex: a Universal Hex is reduced first; only its image for the target is ever flashed, and none is if there is none. */
  method FlashFile(lines: seq<string>, targetMcu: string, loads: seq<string> -> bool, permitted: bool)
    returns (rc: int, h: seq<Step>, raised: bool, noFirmware: bool)
    ensures raised <==> UniversalHex.IsUniversalHex(lines) && UniversalHex.ExtractSpec(lines, targetMcu).Malformed?
    ensures raised ==> h == []
    ensures UniversalHex.IsUniversalHex(lines) && !raised ==>
              forall i :: 0 <= i < |h| && h[i].command.Flash? ==>
                UniversalHex.ExtractSpec(lines, targetMcu) == UniversalHex.Extracted(h[i].command.hex)
    ensures !UniversalHex.IsUniversalHex(lines) ==> forall i :: 0 <= i < |h| && h[i].command.Flash? ==> h[i].command.hex == lines
    ensures !raised && h == [] ==> rc == 1
    ensures noFirmware <==> LeftBlank(h)
  {
    hide Names, Next, Shape, Follows, LeftBlank, UniversalHex.ExtractSpec, UniversalHex.IsUniversalHex;
    raised := false;
    var n := UniversalHexMeaning.NormalizedHex(lines, targetMcu);
    match n {
      case Failed(why) =>
        NothingRun(lines);
        return 1, [], why.Malformed?, false;
      case PassThrough =>
        rc, h, noFirmware := FlashHex(lines, loads(lines), permitted);
        if h != [] {
          EveryRunHasTheShape(h, lines);
          OnlyThisHexIsFlashed(h, lines);
        }
      case Converted(hex) =>
        rc, h, noFirmware := FlashHex(hex, loads(hex), permitted);
        if h != [] {
          EveryRunHasTheShape(h, hex);
          OnlyThisHexIsFlashed(h, hex);
        }
    }
  }
}
