/** The device table of one registry: who owns a row, which state it is in, and the rules for changing it. */
module DeviceStore {
  import opened Options

  type Uid = string
  type Host = string

  datatype State = AttachedUnprobed | Connected | AttachedNoAnnounce | ConnectedNoFirmware | Disconnected

  /** The fields of a serial announcement. */
  datatype Announcement = Announcement(role: string, commonName: string, deviceName: string, serial: string, raw: string)

  /** A row. host is None for a board attached to this registry, else the peer that owns it. */
  datatype Row = Row(
    port: Option<string>,
    vidPid: Option<string>,
    state: State,
    host: Option<Host>,
    probed: bool,
    announced: Option<Announcement>,
    peerLock: Option<string>)

  type Devices = map<Uid, Row>

  const VIRTUAL_VID_PID := "virtual"
  const VIRTUAL_PORT_PREFIX := "virtual:"
  const VIRTUAL_UID_PREFIX := "sim-"

  predicate IsVirtual(r: Row) {
    r.host.None? && r.vidPid == Some(VIRTUAL_VID_PID) && r.port.Some? && VIRTUAL_PORT_PREFIX <= r.port.value
  }

  predicate IsVirtualUid(uid: Uid) {
    VIRTUAL_UID_PREFIX <= uid
  }

  /** A board attached here, as opposed to one this registry only mirrors or remembers. */
  predicate LocallyAttached(d: Devices, uid: Uid) {
    uid in d && d[uid].host.None? && d[uid].state != Disconnected
  }

  // ----- what each write does -----

  function Upserted(d: Devices, uid: Uid, host: Option<Host>, port: Option<string>, vidPid: Option<string>): Devices {
    if uid !in d then d[uid := Row(port, vidPid, AttachedUnprobed, host, false, None, None)]
    else if host.Some? && LocallyAttached(d, uid) then d
    else if d[uid].state == Disconnected
    then d[uid := d[uid].(port := port, vidPid := vidPid, state := AttachedUnprobed, host := host, probed := false)]
    else d[uid := d[uid].(port := port, vidPid := vidPid, host := host)]
  }

  function Probed(d: Devices, uid: Uid, result: Option<Announcement>): Devices {
    if uid !in d then d
    else if result.Some? then d[uid := d[uid].(announced := result, state := Connected, probed := true)]
    else d[uid := d[uid].(state := AttachedNoAnnounce, probed := true)]
  }

  function Blanked(d: Devices, uid: Uid): Devices {
    if uid !in d then d else d[uid := d[uid].(state := ConnectedNoFirmware, probed := true)]
  }

  function Detached(d: Devices, uid: Uid): Devices {
    if uid !in d then d else d[uid := d[uid].(state := Disconnected)]
  }

  function LockShown(d: Devices, uid: Uid, shown: Option<string>): Devices {
    if uid !in d then d else d[uid := d[uid].(peerLock := shown)]
  }

  function VirtualRow(name: string, role: string, serial: string): Row {
    Row(Some(VIRTUAL_PORT_PREFIX + name), Some(VIRTUAL_VID_PID), Connected, None, true,
        Some(Announcement(role, "robot", name, serial, "")), None)
  }

  function VirtualRemoved(d: Devices, uid: Uid): Devices {
    if uid in d && IsVirtual(d[uid]) then d - {uid} else d
  }

  /** Rows a purge may delete: disconnected ones, and all rows of a peer that is currently unreachable. */
  predicate Purgeable(r: Row, peers: map<Host, bool>) {
    r.state == Disconnected || (r.host.Some? && r.host.value in peers && !peers[r.host.value])
  }

  /** Rows a rescan proposes to purge, for one of the three documented reasons. */
  predicate IsCandidate(r: Row, peers: map<Host, bool>) {
    || (r.host.None? && r.state == Disconnected)
    || (r.host.Some? && r.host.value in peers && !peers[r.host.value])
    || (r.host.Some? && r.state == Disconnected && r.host.value in peers && peers[r.host.value])
  }

  function Purged(d: Devices, peers: map<Host, bool>, uids: set<Uid>): Devices {
    map u | u in d && !(u in uids && Purgeable(d[u], peers)) :: d[u]
  }

  /** A row nothing stands behind: its board is gone, or its peer is known and not reachable. */
  lemma PurgeableRows(r: Row, peers: map<Host, bool>)
    ensures Purgeable(r, peers) <==> r.state == Disconnected || match r.host case None => false case Some(h) => h in peers && peers[h] == false
  {
  }

  /** Every proposed row is one purge agrees to delete. */
  lemma CandidatesArePurgeable(r: Row, peers: map<Host, bool>)
    ensures IsCandidate(r, peers) ==> Purgeable(r, peers)
    ensures Purgeable(r, peers) && (r.host.Some? ==> r.host.value in peers) ==> IsCandidate(r, peers)
  {
  }

  // ----- the table itself -----

  class Store {
    var devices: Devices
    var peers: map<Host, bool>

    constructor (devices: Devices, peers: map<Host, bool>)
      ensures this.devices == devices && this.peers == peers
    {
      this.devices, this.peers := devices, peers;
    }

    /** One write path for local and remote boards. A remote claim never takes a board attached here. */
    method UpsertDevice(uid: Uid, host: Option<Host>, port: Option<string>, vidPid: Option<string>)
      modifies this`devices
      ensures devices == Upserted(old(devices), uid, host, port, vidPid)
      ensures forall u :: u != uid ==> (u in devices <==> u in old(devices)) && (u in devices ==> devices[u] == old(devices)[u])
      ensures uid in devices
      ensures var kept := host.Some? && uid in old(devices) && old(devices)[uid].host.None? && old(devices)[uid].state != Disconnected;
              if kept then devices[uid] == old(devices)[uid]
              else
                && devices[uid].port == port && devices[uid].vidPid == vidPid && devices[uid].host == host
                && (uid !in old(devices) || old(devices)[uid].state == Disconnected ==> devices[uid].state == AttachedUnprobed && !devices[uid].probed)
                && (uid in old(devices) && old(devices)[uid].state != Disconnected ==>
                      devices[uid].state == old(devices)[uid].state && devices[uid].probed == old(devices)[uid].probed)
                && devices[uid].announced == (if uid in old(devices) then old(devices)[uid].announced else None)
                && devices[uid].peerLock == (if uid in old(devices) then old(devices)[uid].peerLock else None)
    {
      if uid !in devices {
        devices := devices[uid := Row(port, vidPid, AttachedUnprobed, host, false, None, None)];
        return;
      }
      var existing := devices[uid];
      if host.Some? && existing.host.None? && existing.state != Disconnected {
        return;
      }
      var row := existing.(port := port, vidPid := vidPid, host := host);
      if existing.state == Disconnected {
        row := row.(state := AttachedUnprobed, probed := false);
      }
      devices := devices[uid := row];
    }

    /** The writes below raise KeyError for an unknown uid; here they report it and change nothing. */
    method ApplyProbeResult(uid: Uid, result: Option<Announcement>) returns (known: bool)
      modifies this`devices
      ensures known <==> uid in old(devices)
      ensures devices == Probed(old(devices), uid, result)
      ensures devices == if uid !in old(devices) then old(devices)
                         else if result.None? then old(devices)[uid := old(devices)[uid].(state := AttachedNoAnnounce, probed := true)]
                         else old(devices)[uid := old(devices)[uid].(state := Connected, probed := true, announced := result)]
    {
      if uid !in devices {
        return false;
      }
      var row := devices[uid];
      if result.Some? {
        row := row.(announced := result, state := Connected);
      } else {
        row := row.(state := AttachedNoAnnounce);
      }
      devices := devices[uid := row.(probed := true)];
      return true;
    }

    method ApplyKnownBlank(uid: Uid) returns (known: bool)
      modifies this`devices
      ensures known <==> uid in old(devices)
      ensures devices == Blanked(old(devices), uid)
      ensures devices == if uid !in old(devices) then old(devices)
                         else old(devices)[uid := old(devices)[uid].(state := ConnectedNoFirmware, probed := true)]
    {
      if uid !in devices {
        return false;
      }
      devices := devices[uid := devices[uid].(state := ConnectedNoFirmware, probed := true)];
      return true;
    }

    method MarkDisconnected(uid: Uid) returns (known: bool)
      modifies this`devices
      ensures known <==> uid in old(devices)
      ensures devices == Detached(old(devices), uid)
      ensures devices == if uid !in old(devices) then old(devices) else old(devices)[uid := old(devices)[uid].(state := Disconnected)]
    {
      if uid !in devices {
        return false;
      }
      devices := devices[uid := devices[uid].(state := Disconnected)];
      return true;
    }

    method ApplyRemoteLockState(uid: Uid, shown: Option<string>) returns (known: bool)
      modifies this`devices
      ensures known <==> uid in old(devices)
      ensures devices == LockShown(old(devices), uid, shown)
      ensures devices == if uid !in old(devices) then old(devices) else old(devices)[uid := old(devices)[uid].(peerLock := shown)]
    {
      if uid !in devices {
        return false;
      }
      devices := devices[uid := devices[uid].(peerLock := shown)];
      return true;
    }

    /** Delete any stale row, then insert the registration's. */
    method UpsertVirtual(uid: Uid, name: string, role: string, serial: string)
      modifies this`devices
      ensures devices == old(devices)[uid := VirtualRow(name, role, serial)]
      ensures devices[uid].port == Some("virtual:" + name) && devices[uid].vidPid == Some("virtual") && devices[uid].host == None
      ensures devices[uid].state == Connected && devices[uid].announced == Some(Announcement(role, "robot", name, serial, ""))
    {
      devices := devices - {uid};
      devices := devices[uid := VirtualRow(name, role, serial)];
    }

    method RemoveVirtual(uid: Uid) returns (removed: Option<Row>)
      modifies this`devices
      ensures devices == VirtualRemoved(old(devices), uid)
      ensures removed == if uid in old(devices) && IsVirtual(old(devices)[uid]) then Some(old(devices)[uid]) else None
    {
      if uid !in devices || !IsVirtual(devices[uid]) {
        return None;
      }
      removed := Some(devices[uid]);
      devices := devices - {uid};
    }

    method CandidatesForPurge() returns (uids: set<Uid>)
      ensures uids == set u | u in devices && IsCandidate(devices[u], peers)
    {
      var local := set u | u in devices && devices[u].host.None? && devices[u].state == Disconnected;
      var unreachable := set u | u in devices && devices[u].host.Some? && devices[u].host.value in peers
                                 && !peers[devices[u].host.value];
      var stale := set u | u in devices && devices[u].host.Some? && devices[u].state == Disconnected
                           && devices[u].host.value in peers && peers[devices[u].host.value];
      uids := local + unreachable + stale;
    }

    /** Deletes exactly the given uids that still qualify, then the given peers that are still unreachable. */
    method Purge(uids: set<Uid>, hosts: set<Host>) returns (removed: set<Uid>)
      modifies this
      ensures devices == Purged(old(devices), old(peers), uids)
      ensures forall u :: u in removed <==> u in uids && u in old(devices) && Purgeable(old(devices)[u], old(peers))
      ensures devices == old(devices) - removed
      ensures peers == map h | h in old(peers) && !(h in hosts && !old(peers)[h]) :: old(peers)[h]
      ensures removed == old(devices).Keys - devices.Keys
    {
      var todo := uids;
      removed := {};
      while todo != {}
        invariant todo <= uids
        invariant peers == old(peers)
        invariant devices == Purged(old(devices), old(peers), uids - todo)
        invariant removed == old(devices).Keys - devices.Keys
        decreases todo
      {
        var u :| u in todo;
        todo := todo - {u};
        if u in devices && Purgeable(devices[u], peers) {
          devices := devices - {u};
          removed := removed + {u};
        }
      }
      assert uids - {} == uids;
      peers := map h | h in peers && !(h in hosts && !peers[h]) :: peers[h];
    }
  }
}
