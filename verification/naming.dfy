/** A micro:bit's five-letter name, the radio address it derives, and the way back. */
module RadioNames {
  import opened Options

  const CONSONANTS := "zvgpt"
  const VOWELS := "uoiea"
  const NAME_LEN := 5
  const SPACE := 3125
  const CHANNEL_MIN := 11
  const CHANNEL_MAX := 83
  const CHANNELS := 73
  const GROUP_MIN := 15
  const GROUP_MAX := 255
  const GROUPS := 241
  const CHANNELS_INVERSE := 208

  /** The five letters allowed at a position of a name. */
  function Alphabet(position: nat): (a: string)
    ensures |a| == 5
  {
    if position % 2 == 0 then CONSONANTS else VOWELS
  }

  // ----- the reference: a name is a base-5 numeral, most significant digit first -----

  function Pow5(k: nat): (r: nat)
    requires k < 5
    ensures r > 0
  {
    if k == 0 then 1 else if k == 1 then 5 else if k == 2 then 25 else if k == 3 then 125 else 625
  }

  /** The digit of n that the letter at position p stands for. */
  function Digit(n: nat, p: nat): (d: nat)
    requires p < NAME_LEN
    ensures d < 5
  {
    (n / Pow5(NAME_LEN - 1 - p)) % 5
  }

  /** The name whose five letters spell the low five base-5 digits of n. */
  function NameOf(n: nat): (s: string)
    ensures |s| == NAME_LEN
    ensures forall p :: 0 <= p < NAME_LEN ==> s[p] == Alphabet(p)[Digit(n, p)]
  {
    seq(NAME_LEN, p requires 0 <= p < NAME_LEN => Alphabet(p)[Digit(n, p)])
  }

  predicate IsRobotName(s: string) {
    |s| == NAME_LEN && forall p :: 0 <= p < NAME_LEN ==> s[p] in Alphabet(p)
  }

  /** The number a name spells, by place value. */
  function NameValue(s: string): (n: nat)
    requires IsRobotName(s)
  {
    625 * IndexIn(CONSONANTS, s[0]) + 125 * IndexIn(VOWELS, s[1]) + 25 * IndexIn(CONSONANTS, s[2])
    + 5 * IndexIn(VOWELS, s[3]) + IndexIn(CONSONANTS, s[4])
  }

  function IndexIn(a: string, c: char): (i: nat)
    requires c in a
    ensures i < |a| && a[i] == c && c !in a[..i]
  {
    if a[0] == c then 0 else 1 + IndexIn(a[1..], c)
  }

  lemma LettersAreDistinct(p: nat, i: nat)
    requires i < 5
    ensures IndexIn(Alphabet(p), Alphabet(p)[i]) == i
  {
    var a := Alphabet(p);
    var j := IndexIn(a, a[i]);
    assert a[j] == a[i];
  }

  /** Numbers below 3125 and well-formed names are in bijection. */
  lemma NameOfAndNameValueAreInverse(n: nat, s: string)
    requires n < SPACE
    ensures IsRobotName(NameOf(n)) && NameValue(NameOf(n)) == n
    ensures IsRobotName(s) ==> NameValue(s) < SPACE && NameOf(NameValue(s)) == s
  {
    ValueOfEncodedName(n);
    if IsRobotName(s) {
      NameOfValue(s);
    }
  }

  lemma ValueOfEncodedName(n: nat)
    requires n < SPACE
    ensures IsRobotName(NameOf(n)) && NameValue(NameOf(n)) == n
  {
    var t := NameOf(n);
    forall p | 0 <= p < NAME_LEN
      ensures t[p] in Alphabet(p) && IndexIn(Alphabet(p), t[p]) == Digit(n, p)
    {
      LettersAreDistinct(p, Digit(n, p));
    }
    assert IndexIn(Alphabet(0), t[0]) == Digit(n, 0) && IndexIn(Alphabet(1), t[1]) == Digit(n, 1);
    assert IndexIn(Alphabet(2), t[2]) == Digit(n, 2) && IndexIn(Alphabet(3), t[3]) == Digit(n, 3);
    assert IndexIn(Alphabet(4), t[4]) == Digit(n, 4);
    DigitsMakeUp(n);
  }

  lemma NameOfValue(s: string)
    requires IsRobotName(s)
    ensures NameValue(s) < SPACE && NameOf(NameValue(s)) == s
  {
    hide NameOf, Digit, IndexIn;
    LettersAreIn(s);
    PlaceValueDigits(IndexIn(CONSONANTS, s[0]), IndexIn(VOWELS, s[1]), IndexIn(CONSONANTS, s[2]),
                     IndexIn(VOWELS, s[3]), IndexIn(CONSONANTS, s[4]));
    var m := NameValue(s);
    LetterOf(m, 0, s[0]);
    LetterOf(m, 1, s[1]);
    LetterOf(m, 2, s[2]);
    LetterOf(m, 3, s[3]);
    LetterOf(m, 4, s[4]);
    NameIsFiveLetters(m);
    assert NameOf(m) == [s[0], s[1], s[2], s[3], s[4]];
  }

  lemma LettersAreIn(s: string)
    requires IsRobotName(s)
    ensures |s| == 5 && s[0] in CONSONANTS && s[1] in VOWELS && s[2] in CONSONANTS && s[3] in VOWELS && s[4] in CONSONANTS
  {
    assert s[0] in Alphabet(0) && s[1] in Alphabet(1) && s[2] in Alphabet(2) && s[3] in Alphabet(3) && s[4] in Alphabet(4);
  }

  lemma NameIsFiveLetters(n: nat)
    ensures |NameOf(n)| == NAME_LEN
  {
  }

  /** A position whose digit is the index of a letter holds that letter. */
  lemma LetterOf(n: nat, p: nat, c: char)
    requires p < NAME_LEN && c in Alphabet(p) && Digit(n, p) == IndexIn(Alphabet(p), c)
    ensures |NameOf(n)| == NAME_LEN && NameOf(n)[p] == c
  {
    hide Digit;
  }

  lemma DigitsMakeUp(n: nat)
    requires n < SPACE
    ensures n == 625 * Digit(n, 0) + 125 * Digit(n, 1) + 25 * Digit(n, 2) + 5 * Digit(n, 3) + Digit(n, 4)
  {
    assert n / 625 < 5 && Digit(n, 0) == n / 625;
    assert n / 25 == n / 5 / 5 && n / 125 == n / 25 / 5 && n / 625 == n / 125 / 5;
  }

  lemma PlaceValueDigits(a: nat, b: nat, c: nat, d: nat, e: nat)
    requires a < 5 && b < 5 && c < 5 && d < 5 && e < 5
    ensures var m := 625 * a + 125 * b + 25 * c + 5 * d + e;
            m < SPACE && Digit(m, 0) == a && Digit(m, 1) == b && Digit(m, 2) == c && Digit(m, 3) == d && Digit(m, 4) == e
  {
    var m := 625 * a + 125 * b + 25 * c + 5 * d + e;
    QuotientIs(m, 625, a, 125 * b + 25 * c + 5 * d + e);
    QuotientIs(m, 125, 5 * a + b, 25 * c + 5 * d + e);
    QuotientIs(m, 25, 25 * a + 5 * b + c, 5 * d + e);
    QuotientIs(m, 5, 125 * a + 25 * b + 5 * c + d, e);
    QuotientIs(5 * a + b, 5, a, b);
    QuotientIs(25 * a + 5 * b + c, 5, 5 * a + b, c);
    QuotientIs(125 * a + 25 * b + 5 * c + d, 5, 25 * a + 5 * b + c, d);
    QuotientIs(a, 5, 0, a);
  }

  /** Quotient and remainder are unique. */
  lemma QuotientIs(x: int, m: int, q: int, r: int)
    requires 0 <= r < m && x == m * q + r
    ensures x / m == q && x % m == r
  {
    var q', r' := x / m, x % m;
    assert m * q' + r' == x;
    if q' > q {
      MulStep(m, q', q);
    } else if q' < q {
      MulStep(m, q, q');
    }
  }

  lemma MulStep(m: int, hi: int, lo: int)
    requires m > 0 && hi > lo
    ensures m * hi >= m * lo + m
  {
    var d: nat := hi - lo - 1;
    assert m * d >= 0;
    assert m * (lo + 1 + d) == m * lo + m + m * d;
  }

  // ----- normalisation and validation -----

  predicate IsAsciiSpace(c: char) {
    c in " \t\r\n" || c == 12 as char || c == 11 as char
  }

  function LStrip(s: string): (r: string)
    ensures r == [] || !IsAsciiSpace(r[0])
    ensures |r| <= |s| && r == s[|s| - |r|..]
  {
    if s != [] && IsAsciiSpace(s[0]) then LStrip(s[1..]) else s
  }

  function RStrip(s: string): (r: string)
    ensures r == [] || !IsAsciiSpace(r[|r| - 1])
    ensures r <= s
  {
    if s != [] && IsAsciiSpace(s[|s| - 1]) then RStrip(s[..|s| - 1]) else s
  }

  function LowerChar(c: char): char {
    if 'A' <= c <= 'Z' then (c as int + 32) as char else c
  }

  function Lower(s: string): (r: string)
    ensures |r| == |s|
  {
    seq(|s|, i requires 0 <= i < |s| => LowerChar(s[i]))
  }

  function Normalize(name: string): string {
    Lower(RStrip(LStrip(name)))
  }

  predicate AllBlank(s: string) {
    forall i :: 0 <= i < |s| ==> IsAsciiSpace(s[i])
  }

  /** Blanks are the six ASCII ones, and none is a letter. */
  lemma Blanks(c: char)
    ensures IsAsciiSpace(c) <==> c == ' ' || c == '\t' || c == '\r' || c == '\n' || c == 12 as char || c == 11 as char
    ensures IsAsciiSpace(LowerChar(c)) <==> IsAsciiSpace(c)
    ensures LowerChar(LowerChar(c)) == LowerChar(c)
  {
  }

  /** Blanks around a text do not matter. */
  lemma NormalizeIgnoresOuterBlanks(before: string, text: string, after: string)
    requires AllBlank(before) && AllBlank(after)
    ensures Normalize(before + text + after) == Normalize(text)
  {
    hide IsAsciiSpace, LStrip, RStrip;
    if AllBlank(text) {
      BlanksStripAway(before + text + after);
      BlanksStripAway(text);
    } else {
      LStripPrefix(before, text + after);
      assert before + text + after == before + (text + after);
      LStripBefore(text, after);
      RStripSuffix(LStrip(text), after);
    }
  }

  lemma {:induction false} BlanksStripAway(s: string)
    requires AllBlank(s)
    ensures LStrip(s) == []
  {
    hide IsAsciiSpace;
    if s != [] {
      BlanksStripAway(s[1..]);
    }
  }

  lemma LStripFirst(c: char, s: string)
    ensures LStrip([c] + s) == if IsAsciiSpace(c) then LStrip(s) else [c] + s
  {
    hide IsAsciiSpace;
    assert ([c] + s)[1..] == s;
  }

  lemma {:induction false} LStripPrefix(before: string, s: string)
    requires AllBlank(before)
    ensures LStrip(before + s) == LStrip(s)
  {
    hide IsAsciiSpace, LStrip;
    if before != [] {
      LStripPrefix(before[1..], s);
      assert before + s == [before[0]] + (before[1..] + s);
      LStripFirst(before[0], before[1..] + s);
    } else {
      assert before + s == s;
    }
  }

  lemma {:induction false} LStripBefore(s: string, after: string)
    requires !AllBlank(s)
    ensures LStrip(s + after) == LStrip(s) + after
  {
    hide IsAsciiSpace, LStrip;
    var c, rest := s[0], s[1..];
    assert s == [c] + rest && s + after == [c] + (rest + after);
    LStripFirst(c, rest);
    LStripFirst(c, rest + after);
    if IsAsciiSpace(c) {
      RestIsNotBlank(c, rest);
      LStripBefore(rest, after);
    }
  }

  lemma RestIsNotBlank(c: char, rest: string)
    requires IsAsciiSpace(c) && !AllBlank([c] + rest)
    ensures !AllBlank(rest)
  {
    hide IsAsciiSpace;
    var i :| 0 <= i < |rest| + 1 && !IsAsciiSpace(([c] + rest)[i]);
    assert !IsAsciiSpace(rest[i - 1]);
  }

  lemma {:induction false} RStripSuffix(s: string, after: string)
    requires AllBlank(after)
    ensures RStrip(s + after) == RStrip(s)
  {
    hide IsAsciiSpace;
    if after != [] {
      var init := after[..|after| - 1];
      RStripSuffix(s, init);
      assert (s + after)[..|s + after| - 1] == s + init;
    } else {
      assert s + after == s;
    }
  }

  /** Nor does the case of its letters: a text and its lower-case form normalise alike. */
  lemma NormalizeIgnoresCase(s: string)
    ensures Normalize(Lower(s)) == Normalize(s)
  {
    hide LStrip, RStrip, Lower;
    LStripOfLower(s);
    RStripOfLower(LStrip(s));
    LowerTwice(RStrip(LStrip(s)));
  }

  lemma LowerTwice(s: string)
    ensures Lower(Lower(s)) == Lower(s)
  {
    hide LowerChar;
    forall i | 0 <= i < |s| ensures Lower(Lower(s))[i] == Lower(s)[i] {
      Blanks(s[i]);
    }
  }

  lemma LowerFirst(c: char, s: string)
    ensures Lower([c] + s) == [LowerChar(c)] + Lower(s)
  {
    hide LowerChar;
  }

  lemma LowerLast(s: string, c: char)
    ensures Lower(s + [c]) == Lower(s) + [LowerChar(c)]
  {
    hide LowerChar;
  }

  lemma {:induction false} LStripOfLower(s: string)
    ensures LStrip(Lower(s)) == Lower(LStrip(s))
  {
    hide LStrip, Lower, LowerChar, IsAsciiSpace;
    if s == [] {
      NothingToStrip();
    } else {
      var c, rest := s[0], s[1..];
      assert s == [c] + rest;
      LowerFirst(c, rest);
      LStripFirst(c, rest);
      LStripFirst(LowerChar(c), Lower(rest));
      Blanks(c);
      LStripOfLower(rest);
    }
  }

  lemma NothingToStrip()
    ensures LStrip([]) == [] && RStrip([]) == [] && Lower([]) == []
  {
  }

  lemma RStripLast(s: string, c: char)
    ensures RStrip(s + [c]) == if IsAsciiSpace(c) then RStrip(s) else s + [c]
  {
    hide IsAsciiSpace;
    assert (s + [c])[..|s|] == s;
  }

  lemma {:induction false} RStripOfLower(s: string)
    ensures RStrip(Lower(s)) == Lower(RStrip(s))
  {
    hide RStrip, Lower, LowerChar, IsAsciiSpace;
    if s == [] {
      NothingToStrip();
    } else {
      var init, c := s[..|s| - 1], s[|s| - 1];
      assert s == init + [c];
      LowerLast(init, c);
      RStripLast(init, c);
      RStripLast(Lower(init), LowerChar(c));
      Blanks(c);
      RStripOfLower(init);
    }
  }

  /** Lower case is what one would think, and leaves every other character alone. */
  lemma LowerLetters(s: string, i: nat)
    requires i < |s|
    ensures !('A' <= s[i] <= 'Z') ==> Lower(s)[i] == s[i]
    ensures 'A' <= s[i] <= 'Z' ==> Lower(s)[i] as int - 'a' as int == s[i] as int - 'A' as int
  {
  }

  /** What the pattern accepts: `$` also matches just before a final newline. */
  predicate MatchesNameRe(s: string) {
    IsRobotName(s) || (|s| == NAME_LEN + 1 && s[NAME_LEN] == '\n' && IsRobotName(s[..NAME_LEN]))
  }

  /** After normalisation the pattern's final-newline case cannot arise. */
  lemma NormalizedMatchIsExact(name: string)
    ensures MatchesNameRe(Normalize(name)) <==> IsRobotName(Normalize(name))
  {
    var t := RStrip(LStrip(name));
    if |t| == NAME_LEN + 1 {
      assert Normalize(name)[NAME_LEN] == LowerChar(t[NAME_LEN]);
      assert LowerChar(t[NAME_LEN]) != '\n';
    }
  }

  /** A well-formed name is already normal, so validating twice changes nothing. */
  lemma RobotNamesAreNormal(s: string)
    requires IsRobotName(s)
    ensures Normalize(s) == s
  {
    hide IsRobotName;
    LettersAreIn(s);
    assert !IsAsciiSpace(s[0]) && !IsAsciiSpace(s[4]);
    assert LStrip(s) == s && RStrip(s) == s;
    forall i | 0 <= i < |s| ensures Lower(s)[i] == s[i] {
      assert i == 0 || i == 1 || i == 2 || i == 3 || i == 4;
    }
    assert Lower(s) == s;
  }

  /** The normalised name, or None where the source raises ValueError. */
  function Validate(name: string): Option<string> {
    var n := Normalize(name);
    if MatchesNameRe(n) then Some(n) else None
  }

  // ----- decode and encode -----

  /** decode: succeeds exactly on the spellings of some encoded number, and returns that number. */
  method Decode(name: string) returns (r: Option<nat>)
    ensures r.Some? <==> exists n :: 0 <= n < SPACE && Normalize(name) == NameOf(n)
    ensures r.Some? ==> r.value < SPACE && NameOf(r.value) == Normalize(name)
  {
    NormalizedMatchIsExact(name);
    var validated := Validate(name);
    if validated.None? {
      forall n | 0 <= n < SPACE ensures Normalize(name) != NameOf(n) {
        NameOfAndNameValueAreInverse(n, name);
      }
      return None;
    }
    var s := validated.value;
    var n: nat := 0;
    for p := 0 to NAME_LEN
      invariant n == PrefixValue(s, p)
    {
      n := n * 5 + IndexIn(Alphabet(p), s[p]);
    }
    PrefixValueIsNameValue(s);
    NameOfAndNameValueAreInverse(0, s);
    return Some(n);
  }

  /** The value of the first p letters of a name. */
  ghost function PrefixValue(s: string, p: nat): nat
    requires IsRobotName(s) && p <= NAME_LEN
  {
    if p == 0 then 0 else PrefixValue(s, p - 1) * 5 + IndexIn(Alphabet(p - 1), s[p - 1])
  }

  lemma PrefixValueIsNameValue(s: string)
    requires IsRobotName(s)
    ensures PrefixValue(s, NAME_LEN) == NameValue(s)
  {
    assert s[0] in Alphabet(0) && s[1] in Alphabet(1) && s[2] in Alphabet(2) && s[3] in Alphabet(3) && s[4] in Alphabet(4);
    assert PrefixValue(s, 1) == IndexIn(CONSONANTS, s[0]);
    assert PrefixValue(s, 2) == PrefixValue(s, 1) * 5 + IndexIn(VOWELS, s[1]);
    assert PrefixValue(s, 3) == PrefixValue(s, 2) * 5 + IndexIn(CONSONANTS, s[2]);
    assert PrefixValue(s, 4) == PrefixValue(s, 3) * 5 + IndexIn(VOWELS, s[3]);
  }

  /** encode: writes the least significant digit first, at the end of the name. */
  method Encode(n: int) returns (r: Option<string>)
    ensures r == if 0 <= n < SPACE then Some(NameOf(n)) else None
  {
    if !(0 <= n < SPACE) {
      return None;
    }
    var out := new char[NAME_LEN](_ => ' ');
    var m: nat := n;
    var p := NAME_LEN;
    while p > 0
      invariant 0 <= p <= NAME_LEN
      invariant p > 0 ==> m == n / Pow5(NAME_LEN - p)
      invariant forall q :: p <= q < NAME_LEN ==> out[q] == NameOf(n)[q]
    {
      p := p - 1;
      out[p] := Alphabet(p)[m % 5];
      m := m / 5;
    }
    assert out[..] == NameOf(n);
    return Some(out[..]);
  }

  /** A decoded name encodes back to its normal form. */
  method DecodeThenEncode(name: string) returns (r: Option<string>)
    ensures r.Some? <==> Validate(name).Some?
    ensures r.Some? ==> r.value == Normalize(name)
  {
    NormalizedMatchIsExact(name);
    var n := Decode(name);
    if n.None? {
      if IsRobotName(Normalize(name)) {
        NameOfAndNameValueAreInverse(0, Normalize(name));
      }
      return None;
    }
    NameOfAndNameValueAreInverse(n.value, "");
    r := Encode(n.value);
  }

  // ----- the chip's own friendly name -----

  const CODEBOOK: seq<string> := ["zvgpt", "uoiea", "zvgpt", "uoiea", "zvgpt"]

  /** friendly_name: the low 32 bits written as five base-5 digits through the second copy of the table. */
  method FriendlyName(deviceId: int) returns (name: string)
    ensures name == NameOf((deviceId % 0x1_0000_0000) % SPACE)
    ensures IsRobotName(name) && Validate(name) == Some(name)
  {
    var word: nat := deviceId % 0x1_0000_0000;
    var n := word;
    var letters := new char[5](_ => ' ');
    for i := 0 to 5
      invariant i < 5 ==> n == word / Pow5(i)
      invariant forall q :: 5 - i <= q < 5 ==> letters[q] == NameOf(word % SPACE)[q]
    {
      LowDigits(word, 4 - i);
      assert CODEBOOK[i] == Alphabet(4 - i);
      letters[4 - i] := CODEBOOK[i][n % 5];
      n := n / 5;
    }
    name := letters[..];
    assert name == NameOf(word % SPACE);
    NameOfAndNameValueAreInverse(word % SPACE, "");
    RobotNamesAreNormal(name);
  }

  /** The low five base-5 digits of a number depend only on the number modulo 3125. */
  lemma LowDigits(n: nat, p: nat)
    requires p < NAME_LEN
    ensures Digit(n % SPACE, p) == Digit(n, p)
  {
    var q, r := n / 3125, n % 3125;
    var w := Pow5(NAME_LEN - 1 - p);
    var k := 3125 / w;
    assert w * k == 3125 && k % 5 == 0;
    var d, e := r / w, r % w;
    assert n == w * (k * q + d) + e by {
      assert n == (w * k) * q + (w * d + e);
    }
    QuotientIs(n, w, k * q + d, e);
    QuotientIs(k * q + d, 5, k / 5 * q + d / 5, d % 5);
  }

  // ----- radio addresses -----

  function Address(n: nat): (int, int) {
    (CHANNEL_MIN + n % CHANNELS, GROUP_MIN + n % GROUPS)
  }

  /** The source's reverse map on residues: c modulo 73 and g modulo 241. */
  function FromResidues(c: int, g: int): int {
    c + CHANNELS * (((g - c + GROUPS) * CHANNELS_INVERSE) % GROUPS)
  }

  function RadioToName(channel: int, group: int): Option<string> {
    if !(CHANNEL_MIN <= channel <= CHANNEL_MAX) then None
    else if !(GROUP_MIN <= group <= GROUP_MAX) then None
    else
      var n := FromResidues(channel - CHANNEL_MIN, group - GROUP_MIN);
      if n >= SPACE then None else Some(NameOf(n))
  }

  /** Chinese remainder, one way: every n below 73 * 241 is recovered from its two residues. */
  lemma ResiduesDetermine(n: nat)
    requires n < CHANNELS * GROUPS
    ensures FromResidues(n % CHANNELS, n % GROUPS) == n
  {
    var c, k := n % 73, n / 73;
    var g, j := n % 241, n / 241;
    QuotientIs((g - c + 241) * 208, 241, 63 * k + 208 * (1 - j), k);
  }

  /** Chinese remainder, the other way: the reverse map lands on a number with the residues it was given. */
  lemma FromResiduesHasResidues(c: int, g: int)
    requires 0 <= c < CHANNELS && 0 <= g < GROUPS
    ensures var n := FromResidues(c, g);
            0 <= n < CHANNELS * GROUPS && n % CHANNELS == c && n % GROUPS == g
  {
    var x := g - c + 241;
    var k, q := (x * 208) % 241, (x * 208) / 241;
    QuotientIs(c + 73 * k, 73, k, c);
    QuotientIs(c + 73 * k, 241, 1 + 63 * x - 73 * q, g);
  }

  /** radio_to_name answers exactly on the addresses some name derives, and that name is then the only one. */
  lemma RadioToNameIsExact(channel: int, group: int)
    ensures RadioToName(channel, group).Some? <==> exists n :: 0 <= n < SPACE && Address(n) == (channel, group)
    ensures forall n :: 0 <= n < SPACE && Address(n) == (channel, group) ==> RadioToName(channel, group) == Some(NameOf(n))
    ensures forall n, m :: 0 <= n < SPACE && 0 <= m < SPACE && Address(n) == Address(m) == (channel, group) ==> n == m
  {
    forall n | 0 <= n < SPACE && Address(n) == (channel, group)
      ensures FromResidues(channel - CHANNEL_MIN, group - GROUP_MIN) == n
    {
      ResiduesDetermine(n);
    }
    if CHANNEL_MIN <= channel <= CHANNEL_MAX && GROUP_MIN <= group <= GROUP_MAX {
      FromResiduesHasResidues(channel - CHANNEL_MIN, group - GROUP_MIN);
      var n := FromResidues(channel - CHANNEL_MIN, group - GROUP_MIN);
      assert Address(n) == (channel, group);
    }
  }

  /** Two distinct names never derive the same channel and group. */
  lemma DerivedAddressesAreDistinct(s: string, t: string)
    requires IsRobotName(s) && IsRobotName(t)
    requires Address(NameValue(s)) == Address(NameValue(t))
    ensures s == t
  {
    NameOfAndNameValueAreInverse(0, s);
    NameOfAndNameValueAreInverse(0, t);
    var (channel, group) := Address(NameValue(s));
    RadioToNameIsExact(channel, group);
  }

  /** The first, the last and three published names, with their numbers and addresses. */
  lemma PublishedNames()
    ensures IsRobotName("zuzuz") && NameValue("zuzuz") == 0 && NameOf(0) == "zuzuz" && Address(0) == (11, 15)
    ensures IsRobotName("tatat") && NameValue("tatat") == 3124 && NameOf(3124) == "tatat"
    ensures IsRobotName("vevov") && NameValue("vevov") == 1031 && NameOf(1198504156 % 3125) == "vevov" && Address(1031) == (20, 82)
    ensures IsRobotName("tovez") && NameValue("tovez") == 2665 && NameOf(2314287040 % 3125) == "tovez" && Address(2665) == (48, 29)
    ensures IsRobotName("gopiv") && NameOf(2175407711 % 3125) == "gopiv"
  {
    hide NameOf, NameValue, IsRobotName;
    NameSpells("zuzuz", 0, 0, 0, 0, 0);
    NameSpells("tatat", 4, 4, 4, 4, 4);
    NameSpells("vevov", 1, 3, 1, 1, 1);
    NameSpells("tovez", 4, 1, 1, 3, 0);
    NameSpells("gopiv", 2, 1, 3, 2, 1);
  }

  /** A name given by its letters' positions in the two alphabets. */
  lemma NameSpells(s: string, a: nat, b: nat, c: nat, d: nat, e: nat)
    requires a < 5 && b < 5 && c < 5 && d < 5 && e < 5
    requires s == [CONSONANTS[a], VOWELS[b], CONSONANTS[c], VOWELS[d], CONSONANTS[e]]
    ensures IsRobotName(s) && NameValue(s) == 625 * a + 125 * b + 25 * c + 5 * d + e && NameOf(625 * a + 125 * b + 25 * c + 5 * d + e) == s
  {
    hide NameOf, IndexIn;
    LettersAreDistinct(0, a);
    LettersAreDistinct(1, b);
    LettersAreDistinct(0, c);
    LettersAreDistinct(1, d);
    LettersAreDistinct(0, e);
    FiveLettersAreAName(s, a, b, c, d, e);
    NameOfAndNameValueAreInverse(0, s);
  }

  lemma FiveLettersAreAName(s: string, a: nat, b: nat, c: nat, d: nat, e: nat)
    requires a < 5 && b < 5 && c < 5 && d < 5 && e < 5
    requires s == [CONSONANTS[a], VOWELS[b], CONSONANTS[c], VOWELS[d], CONSONANTS[e]]
    ensures IsRobotName(s)
  {
    forall p | 0 <= p < NAME_LEN ensures s[p] in Alphabet(p) {
      assert p == 0 || p == 1 || p == 2 || p == 3 || p == 4;
    }
  }
}
