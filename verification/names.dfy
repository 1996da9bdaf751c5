/** The registry of robot names: where each robot is, and how a peer's copy catches up. */
module NameRegistry {
  import opened Options
  import opened RadioNames

  datatype Source = Derived | Registered
  datatype Entry = Entry(channel: int, group: int, source: Source)

  type Names = map<string, Entry>

  function Default(name: string): (int, int)
    requires IsRobotName(name)
  {
    Address(NameValue(name))
  }

  /** Rows stand under well-formed names, and a derived row holds the name's default address. */
  ghost predicate ValidNames(m: Names) {
    forall n :: n in m ==> IsRobotName(n) && (m[n].source == Derived ==> (m[n].channel, m[n].group) == Default(n))
  }

  /** Where a robot is: its row, or its default address without one. */
  function Whereabouts(m: Names, name: string): (int, int)
    requires IsRobotName(name)
  {
    if name in m then (m[name].channel, m[name].group) else Default(name)
  }

  lemma ValidatedIsRobotName(name: string)
    ensures Validate(name).Some? <==> IsRobotName(Normalize(name))
    ensures Validate(name).Some? ==> Validate(name).value == Normalize(name)
  {
    NormalizedMatchIsExact(name);
  }

  // ----- the table -----

  class NameTable {
    var names: Names

    ghost predicate Valid()
      reads this
    {
      ValidNames(names)
    }

    constructor ()
      ensures Valid() && names == map[]
    {
      names := map[];
    }

    /** Where is this robot? Answers for every well-formed name, storing the default the first time. */
    method Resolve(name: string) returns (r: Option<Entry>)
      requires Valid()
      modifies this
      ensures Valid()
      ensures r.Some? <==> Validate(name).Some?
      ensures names == AfterOp(old(names), ResolveOp(name))
      ensures r.None? ==> names == old(names)
      ensures r.Some? ==> var n := Normalize(name);
                && names == (if n in old(names) then old(names) else old(names)[n := r.value])
                && (n !in old(names) ==> r.value == Entry(Default(n).0, Default(n).1, Derived))
      ensures r.Some? ==> (r.value.channel, r.value.group) == Whereabouts(old(names), Normalize(name)) && names[Normalize(name)] == r.value
    {
      hide Normalize, NameValue, MatchesNameRe, Address;
      ValidatedIsRobotName(name);
      var v := Validate(name);
      if v.None? {
        return None;
      }
      if v.value !in names {
        var (channel, group) := Default(v.value);
        names := names[v.value := Entry(channel, group, Derived)];
      }
      return Some(names[v.value]);
    }

    method Set(name: string, channel: int, group: int) returns (ok: bool)
      requires Valid()
      modifies this
      ensures Valid()
      ensures ok <==> Validate(name).Some?
      ensures names == AfterOp(old(names), SetOp(name, channel, group))
      ensures names == if ok then old(names)[Normalize(name) := Entry(channel, group, Registered)] else old(names)
    {
      hide Normalize, NameValue, MatchesNameRe;
      ValidatedIsRobotName(name);
      var v := Validate(name);
      if v.None? {
        return false;
      }
      names := names[v.value := Entry(channel, group, Registered)];
      return true;
    }

    method Clear(name: string) returns (ok: bool)
      requires Valid()
      modifies this
      ensures Valid()
      ensures ok <==> Validate(name).Some?
      ensures names == AfterOp(old(names), ClearOp(name))
      ensures names == if ok then old(names) - {Normalize(name)} else old(names)
    {
      var v := Validate(name);
      if v.None? {
        return false;
      }
      names := names - {v.value};
      return true;
    }

    /** Which robot is on this link? Some robot that is there, exactly when there is one; a registered one before a derived one. */
    method NameFor(channel: int, group: int) returns (r: Option<string>)
      requires Valid()
      ensures r.Some? ==> IsRobotName(r.value) && Whereabouts(names, r.value) == (channel, group)
      ensures r.None? ==> forall n :: IsRobotName(n) ==> Whereabouts(names, n) != (channel, group)
      ensures (exists n :: n in names && names[n] == Entry(channel, group, Registered)) ==>
                r.Some? && r.value in names && names[r.value] == Entry(channel, group, Registered)
    {
      hide NameValue, Address, RadioToName, NameOf, Whereabouts;
      var explicit := set n | n in names && names[n] == Entry(channel, group, Registered);
      assert forall n :: n in names && names[n] == Entry(channel, group, Registered) ==> n in explicit;
      if explicit != {} {
        var n :| n in explicit;
        WhoIsThere(names, channel, group, n);
        return Some(n);
      }
      var derived := RadioToName(channel, group);
      DerivedNameIsTheOnlyDefault(channel, group);
      if derived.None? || (derived.value in names && (names[derived.value].channel, names[derived.value].group) != (channel, group)) {
        forall n | IsRobotName(n) ensures Whereabouts(names, n) != (channel, group) {
          WhoIsThere(names, channel, group, n);
          assert n !in explicit;
          assert Default(n) == (channel, group) ==> derived == Some(n);
        }
        return None;
      }
      WhoIsThere(names, channel, group, derived.value);
      return derived;
    }
  }

  /** A robot is on a link by an explicit row, or by default, with no row moving it elsewhere. */
  lemma WhoIsThere(m: Names, channel: int, group: int, n: string)
    requires ValidNames(m) && IsRobotName(n)
    ensures Whereabouts(m, n) == (channel, group)
            <==> (n in m && m[n] == Entry(channel, group, Registered))
                 || (Default(n) == (channel, group) && (n in m ==> (m[n].channel, m[n].group) == (channel, group)))
  {
  }

  /** The reverse map names the one robot whose default is the given link, if there is one. */
  lemma DerivedNameIsTheOnlyDefault(channel: int, group: int)
    ensures RadioToName(channel, group).Some? ==>
              IsRobotName(RadioToName(channel, group).value) && Default(RadioToName(channel, group).value) == (channel, group)
    ensures forall n :: IsRobotName(n) && Default(n) == (channel, group) ==> RadioToName(channel, group) == Some(n)
  {
    RadioToNameIsExact(channel, group);
    hide RadioToName, NameOf, NameValue, Address, IsRobotName;
    if RadioToName(channel, group).Some? {
      var m :| 0 <= m < SPACE && Address(m) == (channel, group);
      NameOfAndNameValueAreInverse(m, "");
    }
    forall n | IsRobotName(n) && Default(n) == (channel, group) ensures RadioToName(channel, group) == Some(n) {
      NameOfAndNameValueAreInverse(0, n);
    }
  }

  // ----- histories of writes -----

  /** What happens to a registry's names. Setting and clearing are published to peers; storing a default is not. */
  datatype Op = SetOp(name: string, channel: int, group: int) | ClearOp(name: string) | ResolveOp(name: string)

  function AfterOp(m: Names, op: Op): Names {
    match Validate(op.name)
    case None => m
    case Some(n) =>
      match op
      case SetOp(_, channel, group) => m[n := Entry(channel, group, Registered)]
      case ClearOp(_) => m - {n}
      case ResolveOp(_) =>
        if n in m then m
        else
          ValidatedIsRobotName(op.name);
          m[n := Entry(Default(n).0, Default(n).1, Derived)]
  }

  function AfterOps(m: Names, ops: seq<Op>): Names {
    if ops == [] then m else AfterOp(AfterOps(m, ops[..|ops| - 1]), ops[|ops| - 1])
  }

  /** The event a write publishes: the stored row's name for a set, the caller's text for a clear; nothing for a refused write. */
  function Published(op: Op): Option<Op> {
    match Validate(op.name)
    case None => None
    case Some(n) =>
      match op
      case SetOp(_, channel, group) => Some(SetOp(n, channel, group))
      case ClearOp(name) => Some(ClearOp(name))
      case ResolveOp(_) => None
  }

  /** A peer applying the published events of some writes. */
  function PeerAfter(m: Names, ops: seq<Op>): Names {
    if ops == [] then m
    else
      var before := PeerAfter(m, ops[..|ops| - 1]);
      match Published(ops[|ops| - 1])
      case None => before
      case Some(e) => AfterOp(before, e)
  }

  /** A peer applying a snapshot: every row is set, whatever its source. */
  function AfterSnapshot(m: Names, snapshot: Names): Names {
    m + map n | n in snapshot :: snapshot[n].(source := Registered)
  }

  /** The op sets or clears the name. */
  predicate Touches(op: Op, n: string) {
    !op.ResolveOp? && Validate(op.name) == Some(n)
  }

  /** The last set or clear of a name. */
  function LastTouch(ops: seq<Op>, n: string): Option<Op> {
    if ops == [] then None
    else if Touches(ops[|ops| - 1], n) then Some(ops[|ops| - 1])
    else LastTouch(ops[..|ops| - 1], n)
  }

  /** The row a name gets from its last set or clear; after a clear there is none. */
  function RowOf(op: Op): Option<Entry> {
    if op.SetOp? then Some(Entry(op.channel, op.group, Registered)) else None
  }

  function RowIn(m: Names, n: string): Option<Entry> {
    if n in m then Some(m[n]) else None
  }

  /** At the origin a row may also appear by itself: a stored default. */
  predicate SameButDefault(n: string, before: Option<Entry>, after: Option<Entry>) {
    after == before || (before.None? && IsRobotName(n) && after == Some(Entry(Default(n).0, Default(n).1, Derived)))
  }

  lemma RowAfterOp(m: Names, op: Op, n: string)
    ensures SameButDefault(n, if Touches(op, n) then RowOf(op) else RowIn(m, n), RowIn(AfterOp(m, op), n))
    ensures !op.ResolveOp? ==> RowIn(AfterOp(m, op), n) == if Touches(op, n) then RowOf(op) else RowIn(m, n)
  {
    hide Validate, Normalize, Default, IsRobotName;
    ValidatedIsRobotName(op.name);
  }

  /** The published event does to a row exactly what the origin's write did, and storing a default does nothing. */
  lemma RowAfterPublished(m: Names, op: Op, n: string)
    ensures RowIn(match Published(op) case None => m case Some(e) => AfterOp(m, e), n) == if Touches(op, n) then RowOf(op) else RowIn(m, n)
  {
    hide NameValue, Address, IsRobotName, Normalize, MatchesNameRe, AfterOp;
    ValidatedIsRobotName(op.name);
    if Validate(op.name).Some? {
      RobotNamesAreNormal(Validate(op.name).value);
      ValidatedIsRobotName(Validate(op.name).value);
      assert Validate(Validate(op.name).value) == Validate(op.name);
    }
    if Published(op).Some? {
      RowAfterOp(m, Published(op).value, n);
    }
  }

  lemma {:induction false} OriginRow(m: Names, ops: seq<Op>, n: string)
    ensures SameButDefault(n, match LastTouch(ops, n) case None => RowIn(m, n) case Some(op) => RowOf(op), RowIn(AfterOps(m, ops), n))
  {
    hide AfterOp, Touches, RowIn, Default, IsRobotName;
    if ops != [] {
      OriginRow(m, ops[..|ops| - 1], n);
      RowAfterOp(AfterOps(m, ops[..|ops| - 1]), ops[|ops| - 1], n);
    }
  }

  lemma {:induction false} PeerRow(m: Names, ops: seq<Op>, n: string)
    ensures RowIn(PeerAfter(m, ops), n) == match LastTouch(ops, n) case None => RowIn(m, n) case Some(op) => RowOf(op)
  {
    hide AfterOp, Touches, RowIn, Published;
    if ops != [] {
      PeerRow(m, ops[..|ops| - 1], n);
      RowAfterPublished(PeerAfter(m, ops[..|ops| - 1]), ops[|ops| - 1], n);
    }
  }

  lemma {:induction false} LastTouchOfSuffix(ops: seq<Op>, s: nat, n: string)
    requires s <= |ops|
    ensures LastTouch(ops[s..], n).Some? ==> LastTouch(ops, n) == LastTouch(ops[s..], n)
    ensures LastTouch(ops[s..], n).None? ==> LastTouch(ops, n) == LastTouch(ops[..s], n)
  {
    hide Touches;
    if s == |ops| {
      assert ops[..s] == ops;
    } else {
      var init := ops[..|ops| - 1];
      assert ops[s..][..|ops| - s - 1] == init[s..] && ops[s..][|ops| - s - 1] == ops[|ops| - 1] && init[..s] == ops[..s];
      LastTouchOfSuffix(init, s, n);
    }
  }

  /** A set or clear published before the snapshot was already published at the subscription, or not at all. */
  lemma UntouchedInSuffix(ops: seq<Op>, s: nat, k: nat, n: string)
    requires s <= k <= |ops| && LastTouch(ops[s..], n).None?
    ensures LastTouch(ops[k..], n).None?
  {
    hide Touches;
    assert ops[s..][k - s..] == ops[k..];
    LastTouchOfSuffix(ops[s..], k - s, n);
  }

  lemma {:induction false} AfterOpsConcat(m: Names, a: seq<Op>, b: seq<Op>)
    ensures AfterOps(m, a + b) == AfterOps(AfterOps(m, a), b)
  {
    hide AfterOp;
    if b == [] {
      assert a + b == a;
    } else {
      AfterOpsConcat(m, a, b[..|b| - 1]);
      assert (a + b)[..|a + b| - 1] == a + b[..|b| - 1];
    }
  }

  // ----- subscribe, snapshot, replay -----

  /** The peer's table after subscribing at write s, applying the snapshot taken after write k, and replaying every event since s. */
  function CaughtUp(peer: Names, origin: Names, ops: seq<Op>, s: nat, k: nat): Names
    requires s <= k <= |ops|
  {
    PeerAfter(AfterSnapshot(peer, AfterOps(origin, ops[..k])), ops[s..])
  }

  /** A row the peer already had that neither the snapshot nor any replayed event mentions. */
  predicate IsLeftover(peer: Names, origin: Names, ops: seq<Op>, s: nat, k: nat, n: string)
    requires s <= k <= |ops|
  {
    n in peer && n !in AfterOps(origin, ops[..k]) && LastTouch(ops[s..], n).None?
  }

  /** Row by row: leftovers apart, the peer has exactly the origin's registered rows and those stored defaults that were in the
      snapshot and not set or cleared since the subscription; at the origin's address, as registered. Replaying events already
      in the snapshot does no harm. */
  lemma CaughtUpRows(peer: Names, origin: Names, ops: seq<Op>, s: nat, k: nat, n: string)
    requires s <= k <= |ops|
    ensures var p, o := CaughtUp(peer, origin, ops, s, k), AfterOps(origin, ops);
            if IsLeftover(peer, origin, ops, s, k, n) then n in p && p[n] == peer[n]
            else
              && (n in p <==> n in o && (o[n].source == Registered || (n in AfterOps(origin, ops[..k]) && LastTouch(ops[s..], n).None?)))
              && (n in p ==> p[n] == o[n].(source := Registered))
  {
    hide AfterOp, Touches, AfterOps, PeerAfter, LastTouch;
    var m := AfterOps(origin, ops[..k]);
    PeerRow(AfterSnapshot(peer, m), ops[s..], n);
    LastTouchOfSuffix(ops, s, n);
    OriginRow(origin, ops, n);
    if LastTouch(ops[s..], n).None? {
      RowsSinceSnapshot(origin, ops, s, k, n);
    }
  }

  /** A fresh peer ends with the origin's names: every row it has is a row of the origin at the same address, and it has every
      registered row. What it lacks is exactly the stored defaults that are newer than the snapshot or follow a clear it replayed. */
  lemma FreshPeerHasTheRows(origin: Names, ops: seq<Op>, s: nat, k: nat, n: string)
    requires s <= k <= |ops|
    ensures var p, o := CaughtUp(map[], origin, ops, s, k), AfterOps(origin, ops);
            && (n in p ==> n in o && (p[n].channel, p[n].group) == (o[n].channel, o[n].group))
            && (n in o && o[n].source == Registered ==> n in p)
            && (n in o ==> (n !in p <==> o[n].source == Derived && (n in AfterOps(origin, ops[..k]) ==> LastTouch(ops[s..], n).Some?)))
  {
    hide AfterOps, CaughtUp, LastTouch;
    CaughtUpRows(map[], origin, ops, s, k, n);
  }

  /** One robot's whereabouts after catching up: the origin's rows the peer does not have are defaults. */
  lemma CaughtUpWhereabouts(peer: Names, origin: Names, ops: seq<Op>, s: nat, k: nat, n: string)
    requires s <= k <= |ops| && IsRobotName(n)
    ensures Whereabouts(CaughtUp(peer, origin, ops, s, k), n)
            == if IsLeftover(peer, origin, ops, s, k, n) then Whereabouts(peer, n) else Whereabouts(AfterOps(origin, ops), n)
  {
    hide IsRobotName, Default, AfterOps, PeerAfter, AfterOp, Touches, LastTouch;
    PeerRow(AfterSnapshot(peer, AfterOps(origin, ops[..k])), ops[s..], n);
    LastTouchOfSuffix(ops, s, n);
    OriginRow(origin, ops, n);
    if LastTouch(ops[s..], n).None? {
      RowsSinceSnapshot(origin, ops, s, k, n);
    }
  }

  /** A name neither set nor cleared since the subscription keeps its row of the snapshot, or gets a default. */
  lemma RowsSinceSnapshot(origin: Names, ops: seq<Op>, s: nat, k: nat, n: string)
    requires s <= k <= |ops| && LastTouch(ops[s..], n).None?
    ensures SameButDefault(n, RowIn(AfterOps(origin, ops[..k]), n), RowIn(AfterOps(origin, ops), n))
  {
    hide AfterOp, Touches, Default, AfterOps, LastTouch, RowIn, IsRobotName;
    UntouchedInSuffix(ops, s, k, n);
    assert ops == ops[..k] + ops[k..];
    AfterOpsConcat(origin, ops[..k], ops[k..]);
    OriginRow(AfterOps(origin, ops[..k]), ops[k..], n);
  }

  /** The peer agrees with the origin about every robot exactly when no leftover row contradicts the robot's default. */
  lemma CatchUpAgreesIffNoStaleLeftover(peer: Names, origin: Names, ops: seq<Op>, s: nat, k: nat)
    requires s <= k <= |ops| && ValidNames(origin) && ValidNames(peer)
    ensures (forall n :: IsRobotName(n) ==>
               Whereabouts(CaughtUp(peer, origin, ops, s, k), n) == Whereabouts(AfterOps(origin, ops), n))
            <==> (forall n :: n in peer && IsLeftover(peer, origin, ops, s, k, n) ==>
                    (peer[n].channel, peer[n].group) == Default(n))
  {
    hide IsRobotName, Default, AfterOps, LastTouch, CaughtUp;
    forall n | IsRobotName(n)
      ensures Whereabouts(CaughtUp(peer, origin, ops, s, k), n) == Whereabouts(AfterOps(origin, ops), n)
              <==> (IsLeftover(peer, origin, ops, s, k, n) ==> (peer[n].channel, peer[n].group) == Default(n))
    {
      CaughtUpWhereabouts(peer, origin, ops, s, k, n);
      if IsLeftover(peer, origin, ops, s, k, n) {
        LeftoverIsUnknownToOrigin(peer, origin, ops, s, k, n);
      }
    }
  }

  lemma LeftoverIsUnknownToOrigin(peer: Names, origin: Names, ops: seq<Op>, s: nat, k: nat, n: string)
    requires s <= k <= |ops| && IsRobotName(n) && IsLeftover(peer, origin, ops, s, k, n)
    ensures Whereabouts(AfterOps(origin, ops), n) == Default(n)
  {
    hide IsRobotName, Default, AfterOps, LastTouch;
    RowsSinceSnapshot(origin, ops, s, k, n);
  }

  /** In particular a fresh peer always ends up agreeing with the origin about every robot. */
  lemma FreshPeerCatchesUp(origin: Names, ops: seq<Op>, s: nat, k: nat, n: string)
    requires s <= k <= |ops| && IsRobotName(n)
    ensures Whereabouts(CaughtUp(map[], origin, ops, s, k), n) == Whereabouts(AfterOps(origin, ops), n)
  {
    CaughtUpWhereabouts(map[], origin, ops, s, k, n);
  }

  // ----- the receiving side -----

  /** Applying a snapshot row by row. */
  method ApplySnapshot(table: NameTable, snapshot: Names)
    requires table.Valid() && ValidNames(snapshot)
    modifies table
    ensures table.Valid() && table.names == AfterSnapshot(old(table.names), snapshot)
    ensures forall n :: n in table.names <==> n in old(table.names) || n in snapshot
    ensures forall n :: n in snapshot ==> table.names[n] == Entry(snapshot[n].channel, snapshot[n].group, Registered)
    ensures forall n :: n in old(table.names) && n !in snapshot ==> table.names[n] == old(table.names)[n]
  {
    hide NameValue, Address, Normalize, MatchesNameRe, IsRobotName;
    var todo := snapshot.Keys;
    while todo != {}
      invariant todo <= snapshot.Keys && table.Valid()
      invariant forall n :: n in table.names <==> n in old(table.names) || (n in snapshot && n !in todo)
      invariant forall n :: n in table.names ==>
                  table.names[n] == if n in snapshot && n !in todo then snapshot[n].(source := Registered) else old(table.names)[n]
      decreases todo
    {
      var n :| n in todo;
      todo := todo - {n};
      RobotNamesAreNormal(n);
      ValidatedIsRobotName(n);
      var ok := table.Set(n, snapshot[n].channel, snapshot[n].group);
    }
    assert table.names == AfterSnapshot(old(table.names), snapshot);
  }

  /** Replaying the published events of some writes, in order. */
  method Replay(table: NameTable, ops: seq<Op>)
    requires table.Valid()
    modifies table
    ensures table.Valid() && table.names == PeerAfter(old(table.names), ops)
  {
    hide Normalize, MatchesNameRe, AfterOp;
    for i := 0 to |ops|
      invariant table.Valid() && table.names == PeerAfter(old(table.names), ops[..i])
    {
      assert ops[..i + 1][..i] == ops[..i];
      var e := Published(ops[i]);
      if e.Some? {
        if e.value.SetOp? {
          var ok := table.Set(e.value.name, e.value.channel, e.value.group);
        } else {
          var ok := table.Clear(e.value.name);
        }
      }
    }
    assert ops[..|ops|] == ops;
  }
}
