/** Mirroring other registries' boards: live events and snapshots, gated by who owns a row. */
module Peering {
  import opened Options
  import opened DeviceStore

  /** A live device event from a peer. A state the receiver does not act on is None. */
  datatype Event =
    | Attach(uid: Uid, port: Option<string>, vidPid: Option<string>)
    | Detach(uid: Uid)
    | Identity(uid: Uid, state: Option<State>, announced: Announcement)
    | LockState(uid: Uid, shown: Option<string>)

  /** One device of a peer's snapshot. */
  datatype Entry = Entry(uid: Uid, port: Option<string>, vidPid: Option<string>, state: Option<State>, announced: Announcement)

  // ----- what applying them does -----

  /** A report may be applied if the row is unknown (the write then does nothing) or is the reporting peer's. */
  predicate AttributedTo(d: Devices, uid: Uid, host: Host) {
    uid in d ==> d[uid].host == Some(host)
  }

  function StateLayer(d: Devices, uid: Uid, state: Option<State>, announced: Announcement): Devices {
    match state
    case Some(Connected) => Probed(d, uid, Some(announced))
    case Some(AttachedNoAnnounce) => Probed(d, uid, None)
    case Some(ConnectedNoFirmware) => Blanked(d, uid)
    case _ => d
  }

  function AfterEvent(d: Devices, host: Host, e: Event): Devices {
    match e
    case Attach(uid, port, vidPid) => Upserted(d, uid, Some(host), port, vidPid)
    case Detach(uid) => if AttributedTo(d, uid, host) then Detached(d, uid) else d
    case Identity(uid, state, announced) => if AttributedTo(d, uid, host) then StateLayer(d, uid, state, announced) else d
    case LockState(uid, shown) => if AttributedTo(d, uid, host) then LockShown(d, uid, shown) else d
  }

  function AfterEntry(d: Devices, host: Host, e: Entry): Devices {
    var d' := Upserted(d, e.uid, Some(host), e.port, e.vidPid);
    if d'[e.uid].host != Some(host) then d'
    else if e.state == Some(Disconnected) then Detached(d', e.uid)
    else StateLayer(d', e.uid, e.state, e.announced)
  }

  function AfterEntries(d: Devices, host: Host, entries: seq<Entry>): Devices {
    if entries == [] then d
    else AfterEntry(AfterEntries(d, host, entries[..|entries| - 1]), host, entries[|entries| - 1])
  }

  function Seen(entries: seq<Entry>): set<Uid> {
    set e | e in entries :: e.uid
  }

  /** Rows of the peer that its snapshot does not list are marked disconnected. */
  function Pruned(d: Devices, host: Host, seen: set<Uid>): Devices {
    map u | u in d :: if d[u].host == Some(host) && u !in seen then d[u].(state := Disconnected) else d[u]
  }

  function AfterSnapshot(d: Devices, host: Host, entries: seq<Entry>): Devices {
    Pruned(AfterEntries(d, host, entries), host, Seen(entries))
  }

  // ----- the source's functions over the store -----

  method ApplyStateLayer(store: Store, uid: Uid, state: Option<State>, announced: Announcement)
    modifies store`devices
    ensures store.devices == StateLayer(old(store.devices), uid, state, announced)
  {
    match state {
      case Some(Connected) =>
        var known := store.ApplyProbeResult(uid, Some(announced));
      case Some(AttachedNoAnnounce) =>
        var known := store.ApplyProbeResult(uid, None);
      case Some(ConnectedNoFirmware) =>
        var known := store.ApplyKnownBlank(uid);
      case _ =>
    }
  }

  method ApplyEvent(store: Store, host: Host, e: Event)
    modifies store`devices
    ensures store.devices == AfterEvent(old(store.devices), host, e)
  {
    match e {
      case Attach(uid, port, vidPid) =>
        store.UpsertDevice(uid, Some(host), port, vidPid);
      case Detach(uid) =>
        if uid !in store.devices || store.devices[uid].host == Some(host) {
          var known := store.MarkDisconnected(uid);
        }
      case Identity(uid, state, announced) =>
        if uid !in store.devices || store.devices[uid].host == Some(host) {
          ApplyStateLayer(store, uid, state, announced);
        }
      case LockState(uid, shown) =>
        if uid !in store.devices || store.devices[uid].host == Some(host) {
          var known := store.ApplyRemoteLockState(uid, shown);
        }
    }
  }

  method ApplySnapshotDevice(store: Store, host: Host, e: Entry)
    modifies store`devices
    ensures store.devices == AfterEntry(old(store.devices), host, e)
  {
    store.UpsertDevice(e.uid, Some(host), e.port, e.vidPid);
    if store.devices[e.uid].host != Some(host) {
      return;
    }
    if e.state == Some(Disconnected) {
      var known := store.MarkDisconnected(e.uid);
    } else {
      ApplyStateLayer(store, e.uid, e.state, e.announced);
    }
  }

  method ApplySnapshot(store: Store, host: Host, entries: seq<Entry>)
    modifies store`devices
    ensures store.devices == AfterSnapshot(old(store.devices), host, entries)
  {
    for i := 0 to |entries|
      invariant store.devices == AfterEntries(old(store.devices), host, entries[..i])
    {
      assert entries[..i + 1][..i] == entries[..i];
      ApplySnapshotDevice(store, host, entries[i]);
    }
    assert entries[..|entries|] == entries;
    var seen := set e | e in entries :: e.uid;
    ghost var d := store.devices;
    var todo := store.devices.Keys;
    while todo != {}
      invariant todo <= d.Keys == store.devices.Keys
      invariant forall u :: u in d ==> store.devices[u] == if u in todo then d[u] else Pruned(d, host, seen)[u]
      decreases todo
    {
      var u :| u in todo;
      todo := todo - {u};
      var row := store.devices[u];
      if row.host == Some(host) && u !in seen && row.state != Disconnected {
        var known := store.MarkDisconnected(u);
      }
    }
  }

  // ----- what an event does -----

  /** The owner of a row decides what it shows here, and only the owner; anyone may claim a board that is not attached here. */
  lemma EventEffect(d: Devices, h: Host, e: Event, uid: Uid)
    ensures uid != e.uid ==> (uid in AfterEvent(d, h, e) <==> uid in d) && (uid in d ==> AfterEvent(d, h, e)[uid] == d[uid])
    ensures e.uid !in d && !e.Attach? ==> AfterEvent(d, h, e) == d
    ensures e.uid in d && d[e.uid].host != Some(h) && !e.Attach? ==> AfterEvent(d, h, e) == d
    ensures e.uid in d && d[e.uid].host == Some(h) ==>
              var was, now := d[e.uid], AfterEvent(d, h, e)[e.uid];
              match e
              case Attach(_, port, vidPid) => now.port == port && now.vidPid == vidPid && now.host == Some(h) && now.state != Disconnected
              case Detach(_) => now == was.(state := Disconnected)
              case LockState(_, shown) => now == was.(peerLock := shown)
              case Identity(_, state, announced) =>
                if state == Some(Connected) then now == was.(state := Connected, announced := Some(announced), probed := true)
                else if state == Some(AttachedNoAnnounce) then now == was.(state := AttachedNoAnnounce, probed := true)
                else if state == Some(ConnectedNoFirmware) then now == was.(state := ConnectedNoFirmware, probed := true)
                else now == was
    ensures e.Attach? ==> (AfterEvent(d, h, e)[e.uid].host == Some(h) <==> !LocallyAttached(d, e.uid))
  {
  }

  /** One device of a snapshot: a board that may be claimed becomes the peer's, as the peer shows it. */
  lemma EntryEffect(d: Devices, h: Host, e: Entry)
    ensures LocallyAttached(d, e.uid) ==> AfterEntry(d, h, e) == d
    ensures !LocallyAttached(d, e.uid) ==>
              && e.uid in AfterEntry(d, h, e)
              && var now := AfterEntry(d, h, e)[e.uid];
                 && now.host == Some(h) && now.port == e.port && now.vidPid == e.vidPid
                 && (e.state == Some(Disconnected) ==> now.state == Disconnected)
                 && (e.state == Some(Connected) ==> now.state == Connected && now.announced == Some(e.announced) && now.probed)
                 && (e.state == Some(AttachedNoAnnounce) ==> now.state == AttachedNoAnnounce && now.probed)
                 && (e.state == Some(ConnectedNoFirmware) ==> now.state == ConnectedNoFirmware && now.probed)
                 && (e.state.None? || e.state == Some(AttachedUnprobed) ==> now.state != Disconnected)
  {
  }

  // ----- ownership -----

  /** A step of peer h leaves every row either as it was or attributed to h, deletes none, and never touches a board attached here. */
  ghost predicate RespectsOwnership(d: Devices, d': Devices, h: Host) {
    && d.Keys <= d'.Keys
    && (forall u :: u in d' ==> (u in d && d'[u] == d[u]) || d'[u].host == Some(h))
    && (forall u :: LocallyAttached(d, u) ==> d'[u] == d[u])
  }

  lemma RespectsOwnershipTrans(a: Devices, b: Devices, c: Devices, h: Host)
    requires RespectsOwnership(a, b, h) && RespectsOwnership(b, c, h)
    ensures RespectsOwnership(a, c, h)
  {
    forall u | LocallyAttached(a, u) ensures c[u] == a[u] {
      assert LocallyAttached(b, u);
    }
  }

  lemma EventRespectsOwnership(d: Devices, h: Host, e: Event)
    ensures RespectsOwnership(d, AfterEvent(d, h, e), h)
  {
  }

  lemma EntryRespectsOwnership(d: Devices, h: Host, e: Entry)
    ensures RespectsOwnership(d, AfterEntry(d, h, e), h)
  {
  }

  lemma {:induction false} EntriesRespectOwnership(d: Devices, h: Host, entries: seq<Entry>)
    ensures RespectsOwnership(d, AfterEntries(d, h, entries), h)
  {
    if entries != [] {
      var init := entries[..|entries| - 1];
      EntriesRespectOwnership(d, h, init);
      EntryRespectsOwnership(AfterEntries(d, h, init), h, entries[|entries| - 1]);
      RespectsOwnershipTrans(d, AfterEntries(d, h, init), AfterEntries(d, h, entries), h);
    }
  }

  lemma SnapshotRespectsOwnership(d: Devices, h: Host, entries: seq<Entry>)
    ensures RespectsOwnership(d, AfterSnapshot(d, h, entries), h)
  {
    EntriesRespectOwnership(d, h, entries);
    RespectsOwnershipTrans(d, AfterEntries(d, h, entries), AfterSnapshot(d, h, entries), h);
  }

  datatype PeerStep = Live(host: Host, event: Event) | Bulk(host: Host, entries: seq<Entry>)

  function AfterStep(d: Devices, s: PeerStep): Devices {
    match s
    case Live(h, e) => AfterEvent(d, h, e)
    case Bulk(h, entries) => AfterSnapshot(d, h, entries)
  }

  function AfterSteps(d: Devices, steps: seq<PeerStep>): Devices {
    if steps == [] then d else AfterStep(AfterSteps(d, steps[..|steps| - 1]), steps[|steps| - 1])
  }

  /** Over every interleaving of snapshots and events of any peers: no row disappears, a board attached here is never altered,
      and a row that changed at all belongs to one of the peers that reported. */
  lemma {:induction false} PeersNeverTouchLocalBoards(d: Devices, steps: seq<PeerStep>)
    ensures var d' := AfterSteps(d, steps);
            && d.Keys <= d'.Keys
            && (forall u :: LocallyAttached(d, u) ==> d'[u] == d[u])
            && forall u :: u in d' ==> (u in d && d'[u] == d[u]) || exists i :: 0 <= i < |steps| && d'[u].host == Some(steps[i].host)
  {
    if steps != [] {
      var init, s := steps[..|steps| - 1], steps[|steps| - 1];
      var m, d' := AfterSteps(d, init), AfterSteps(d, steps);
      PeersNeverTouchLocalBoards(d, init);
      if s.Live? {
        EventRespectsOwnership(m, s.host, s.event);
      } else {
        SnapshotRespectsOwnership(m, s.host, s.entries);
      }
      forall u | LocallyAttached(d, u) ensures d'[u] == d[u] {
        assert LocallyAttached(m, u);
      }
      forall u | u in d' && !(u in d && d'[u] == d[u]) ensures exists i :: 0 <= i < |steps| && d'[u].host == Some(steps[i].host) {
        if d'[u].host == Some(s.host) {
          assert steps[|steps| - 1] == s;
        } else {
          var i :| 0 <= i < |init| && m[u].host == Some(init[i].host);
          assert steps[i] == init[i];
        }
      }
    }
  }

  // ----- what a snapshot achieves -----

  /** The rows a registry advertises: its own attached boards that are real. */
  predicate Advertised(origin: Devices, uid: Uid) {
    LocallyAttached(origin, uid) && !IsVirtual(origin[uid])
  }

  predicate IsEntryOf(e: Entry, r: Row) {
    e.state == Some(r.state) && e.port == r.port && e.vidPid == r.vidPid && (r.announced.Some? ==> e.announced == r.announced.value)
  }

  /** The entries are the origin's snapshot, in any order. */
  ghost predicate IsSnapshotOf(entries: seq<Entry>, origin: Devices) {
    && (forall i, j :: 0 <= i < j < |entries| ==> entries[i].uid != entries[j].uid)
    && (forall i :: 0 <= i < |entries| ==> Advertised(origin, entries[i].uid) && IsEntryOf(entries[i], origin[entries[i].uid]))
    && forall u :: Advertised(origin, u) ==> u in Seen(entries)
  }

  /** A row not listed by some entries is left alone by them. */
  lemma {:induction false} EntriesTouchOnlySeen(d: Devices, h: Host, entries: seq<Entry>, uid: Uid)
    requires uid !in Seen(entries)
    ensures uid in AfterEntries(d, h, entries) <==> uid in d
    ensures uid in d ==> AfterEntries(d, h, entries)[uid] == d[uid]
  {
    if entries != [] {
      var init := entries[..|entries| - 1];
      assert entries[|entries| - 1] in entries && forall e :: e in init ==> e in entries;
      EntriesTouchOnlySeen(d, h, init, uid);
    }
  }

  /** What the row of the k-th entry looks like after all of them, if its uid is listed only once. */
  lemma {:induction false} EntryDecidesItsRow(d: Devices, h: Host, entries: seq<Entry>, k: nat)
    requires k < |entries| && forall i, j :: 0 <= i < j < |entries| ==> entries[i].uid != entries[j].uid
    ensures entries[k].uid in AfterEntries(d, h, entries)
    ensures AfterEntries(d, h, entries)[entries[k].uid] == AfterEntry(d, h, entries[k])[entries[k].uid]
  {
    hide AfterEntry;
    var init, last := entries[..|entries| - 1], entries[|entries| - 1];
    if k == |entries| - 1 {
      assert last.uid !in Seen(init);
      EntriesTouchOnlySeen(d, h, init, last.uid);
      EntryDependsOnItsRow(AfterEntries(d, h, init), d, h, last);
    } else {
      assert init[k] == entries[k];
      EntryDecidesItsRow(d, h, init, k);
      EntryTouchesItsRow(AfterEntries(d, h, init), h, last, entries[k].uid);
    }
  }

  lemma EntryTouchesItsRow(d: Devices, h: Host, e: Entry, uid: Uid)
    requires uid in d && uid != e.uid
    ensures uid in AfterEntry(d, h, e) && AfterEntry(d, h, e)[uid] == d[uid]
  {
  }

  lemma EntryDependsOnItsRow(d: Devices, d': Devices, h: Host, e: Entry)
    requires (e.uid in d <==> e.uid in d') && (e.uid in d ==> d[e.uid] == d'[e.uid])
    ensures e.uid in AfterEntry(d, h, e) && e.uid in AfterEntry(d', h, e) && AfterEntry(d, h, e)[e.uid] == AfterEntry(d', h, e)[e.uid]
  {
  }

  /** After applying the origin's snapshot, the boards listed as attached at the origin are exactly the ones it advertises,
      except those attached here; on the origin's ports, in its probed states, and with its announcements. */
  lemma SnapshotMirrorsTheOrigin(d: Devices, h: Host, entries: seq<Entry>, origin: Devices, uid: Uid)
    requires IsSnapshotOf(entries, origin)
    ensures var d' := AfterSnapshot(d, h, entries);
            && (uid in d' && d'[uid].host == Some(h) && d'[uid].state != Disconnected
                <==> Advertised(origin, uid) && !LocallyAttached(d, uid))
            && (Advertised(origin, uid) && !LocallyAttached(d, uid) && origin[uid].state != AttachedUnprobed
                ==> d'[uid].state == origin[uid].state)
            && (Advertised(origin, uid) && !LocallyAttached(d, uid) ==>
                  d'[uid].port == origin[uid].port && d'[uid].vidPid == origin[uid].vidPid
                  && (origin[uid].state == Connected && origin[uid].announced.Some? ==> d'[uid].announced == origin[uid].announced))
  {
    hide AfterEntries, IsVirtual;
    if uid in Seen(entries) {
      var e :| e in entries && e.uid == uid;
      var k :| 0 <= k < |entries| && entries[k] == e;
      EntryDecidesItsRow(d, h, entries, k);
      assert Advertised(origin, uid);
    } else {
      EntriesTouchOnlySeen(d, h, entries, uid);
    }
  }
}
