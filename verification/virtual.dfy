/** Registered virtual boards: which names they may take, and the table of live registrations. */
module VirtualBoardTable {
  import opened Options
  import RadioNames

  predicate IsLetter(c: char) {
    'a' <= c <= 'z' || 'A' <= c <= 'Z'
  }

  predicate IsBoardName(s: string) {
    && 2 <= |s| <= 32 && IsLetter(s[0])
    && forall i :: 1 <= i < |s| ==> IsLetter(s[i]) || '0' <= s[i] <= '9' || s[i] == '-'
  }

  /** The registration pattern; `$` also matches just before a final newline. */
  predicate MatchesBoardNameRe(s: string) {
    IsBoardName(s) || (s != [] && s[|s| - 1] == '\n' && IsBoardName(s[..|s| - 1]))
  }

  /** A board name starts with a letter, is 2 to 32 characters long and holds no '@', no blank and no path separator,
      except that one newline may follow it. */
  lemma BoardNameShape(s: string)
    requires MatchesBoardNameRe(s)
    ensures 2 <= |s| <= 33 && ('a' <= s[0] <= 'z' || 'A' <= s[0] <= 'Z')
    ensures forall i :: 0 <= i < |s| ==> s[i] != '@' && s[i] != ' ' && s[i] != '/' && s[i] != '\\' && s[i] != ':' && (s[i] == '\n' ==> i == |s| - 1)
    ensures |s| == 33 ==> s[32] == '\n'
  {
    if !IsBoardName(s) {
      var t := s[..|s| - 1];
      assert forall i :: 0 <= i < |t| ==> s[i] == t[i];
    }
  }

  predicate IsReservedName(name: string) {
    RadioNames.MatchesNameRe(RadioNames.Normalize(name))
  }

  /** A name is reserved exactly when it normalises to the name of some number. */
  lemma ReservedNamesAreTheRobotNames(name: string)
    ensures IsReservedName(name) <==> exists n :: 0 <= n < RadioNames.SPACE && RadioNames.Normalize(name) == RadioNames.NameOf(n)
  {
    RadioNames.NormalizedMatchIsExact(name);
    var s := RadioNames.Normalize(name);
    if RadioNames.IsRobotName(s) {
      RadioNames.NameOfAndNameValueAreInverse(0, s);
    }
    forall n | 0 <= n < RadioNames.SPACE ensures RadioNames.IsRobotName(RadioNames.NameOf(n)) {
      RadioNames.NameOfAndNameValueAreInverse(n, s);
    }
  }

  /** No accepted board name, however it is cased or padded, is the friendly name of any chip. */
  method NeverAChipName(name: string, deviceId: int) returns (chipName: string)
    requires MatchesBoardNameRe(name) && !IsReservedName(name)
    ensures RadioNames.Normalize(name) != chipName
    ensures chipName == RadioNames.NameOf((deviceId % 0x1_0000_0000) % RadioNames.SPACE)
  {
    chipName := RadioNames.FriendlyName(deviceId);
    ReservedNamesAreTheRobotNames(name);
  }

  function UidOf(name: string): string {
    "sim-" + name
  }

  function KeyOf(name: string): string {
    RadioNames.Lower(name)
  }

  /** One live registration; the table compares registrations as objects. */
  class Registration {
    const name: string

    constructor (name: string)
      ensures this.name == name
    {
      this.name := name;
    }
  }

  class VirtualBoards {
    var byName: map<string, Registration>

    /** Every entry stands under the key of its own name. */
    ghost predicate Valid()
      reads this
    {
      forall k :: k in byName ==> KeyOf(byName[k].name) == k
    }

    /** Key and name of every live registration. */
    ghost function Names(): map<string, string>
      reads this
    {
      map k | k in byName :: byName[k].name
    }

    constructor ()
      ensures Valid() && byName == map[]
    {
      byName := map[];
    }

    method NameInUse(name: string) returns (inUse: bool)
      ensures inUse <==> KeyOf(name) in byName
    {
      inUse := KeyOf(name) in byName;
    }

    method Add(reg: Registration)
      requires Valid()
      modifies this
      ensures Valid() && byName == old(byName)[KeyOf(reg.name) := reg]
      ensures Names() == old(Names())[KeyOf(reg.name) := reg.name]
    {
      byName := byName[KeyOf(reg.name) := reg];
      assert Names() == old(Names())[KeyOf(reg.name) := reg.name];
    }

    /** Removes a registration only while it is still the live one for its name. */
    method Remove(reg: Registration) returns (removed: bool)
      requires Valid()
      modifies this
      ensures Valid()
      ensures removed <==> KeyOf(reg.name) in old(byName) && old(byName)[KeyOf(reg.name)] == reg
      ensures byName == if removed then old(byName) - {KeyOf(reg.name)} else old(byName)
      ensures Names() == if removed then old(Names()) - {KeyOf(reg.name)} else old(Names())
    {
      removed := KeyOf(reg.name) in byName && byName[KeyOf(reg.name)] == reg;
      if removed {
        byName := byName - {KeyOf(reg.name)};
        assert Names() == old(Names()) - {KeyOf(reg.name)};
      }
    }

    /** The live registration of a uid, by scanning the table; uids differ because names do. */
    method ByUid(uid: string) returns (reg: Registration?)
      requires Valid()
      ensures reg != null ==> reg in byName.Values && UidOf(reg.name) == uid
      ensures reg == null ==> forall k :: k in byName ==> UidOf(byName[k].name) != uid
    {
      var todo := byName.Keys;
      while todo != {}
        invariant todo <= byName.Keys
        invariant forall k :: k in byName && k !in todo ==> UidOf(byName[k].name) != uid
        decreases todo
      {
        var k :| k in todo;
        todo := todo - {k};
        if UidOf(byName[k].name) == uid {
          assert byName[k] in byName.Values;
          return byName[k];
        }
      }
      return null;
    }
  }
}
