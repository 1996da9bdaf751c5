/** What each step of the session protocol is for, one observable at a time: the locks, the connections, the rows, the boards and
    the claims it changes, told by the fields themselves. */
module SessionEffects {
  import opened Options
  import opened DeviceStore
  import opened Peering
  import opened VirtualBoardTable
  import RadioNames
  import opened Sessions
  import opened SessionSafety
  import L = Locks

  /** What a connection may use: any row from a local process, but only real boards of this registry from a remote session. */
  predicate MayUse(w: World, c: ConnId, uid: Uid) {
    && c in w.conns && w.conns[c].activity == Ready && uid in w.devices
    && (w.conns[c].holder.Remote? ==>
          w.devices[uid].host == None && !(w.devices[uid].vidPid == Some("virtual") && w.devices[uid].port.Some? && "virtual:" <= w.devices[uid].port.value))
  }

  predicate IsGoneHere(w: World, uid: Uid) {
    uid in w.devices && w.devices[uid].host == None && w.devices[uid].state == Disconnected
  }

  /** A real board that the daemon believes is plugged in here. */
  predicate IsPluggedIn(w: World, uid: Uid) {
    && uid in w.devices && w.devices[uid].host == None && w.devices[uid].state != Disconnected
    && !(w.devices[uid].vidPid == Some("virtual") && w.devices[uid].port.Some? && "virtual:" <= w.devices[uid].port.value)
  }

  lemma PluggedInMeansScanned(w: World, uid: Uid)
    ensures IsPluggedIn(w, uid) <==> ScannedBefore(w, uid)
    ensures forall c :: MayUse(w, c, uid) <==> Found(w, c, uid)
    ensures uid in w.devices ==> (IsGoneHere(w, uid) <==> IsDetached(w.devices[uid]))
  {
  }

  // ----- locks -----

  /** The steps that end uid's lock, over all steps and all holders. */
  predicate EndsLock(w: World, a: Action, uid: Uid)
    requires uid in w.locks
  {
    var holder := w.locks[uid].holder;
    match a
    case Unlock(c, u) => u == uid && MayUse(w, c, uid) && w.conns[c].holder == holder
    case StreamRelease(c) => c in w.conns && w.conns[c].activity == Streaming(uid) && w.conns[c].holder == holder
    case FlashEnd(c) => c in w.conns && w.conns[c].activity == Flashing(uid) && w.conns[c].holder == holder
    case Close(c) => c in w.conns && uid in w.conns[c].acquired && w.conns[c].holder == holder
    case SweepLocal(dead) => holder.Local? && holder.pid in dead
    case SweepRemote => holder.Remote? && holder.session !in w.live
    case ForceUnlock(u) => u == uid && uid in w.devices
    case DetachBoard(key) => key in w.boards && "sim-" + w.boards[key] == uid
    case ScanDetach(u) => u == uid && IsPluggedIn(w, uid)
    case _ => false
  }

  /** A lock stays, as it is, through every other step. */
  lemma LockEndsIff(w: World, a: Action, uid: Uid)
    requires uid in w.locks
    ensures uid in Step(w, a).locks <==> !EndsLock(w, a, uid)
    ensures uid in Step(w, a).locks ==> Step(w, a).locks[uid] == w.locks[uid]
  {
    PluggedInMeansScanned(w, uid);
    if OnlyStoreChanges(a) {
      StoreStepsKeepLocksAndConns(w, a);
    } else if a.Unlock? || a.StreamRelease? || a.FlashEnd? || a.Close? {
      OwnStepsAndLocks(w, a, uid);
    } else if a.SweepLocal? || a.SweepRemote? || a.ForceUnlock? || a.DetachBoard? || a.ScanDetach? {
      RevokingStepsAndLocks(w, a, uid);
    } else {
      hide Freed, IsVirtual, IsDetached, MatchesBoardNameRe, IsReservedName, KeyOf, MayUse, IsPluggedIn, IsGoneHere, Found, HoldsLock;
    }
  }

  lemma OwnStepsAndLocks(w: World, a: Action, uid: Uid)
    requires a.Unlock? || a.StreamRelease? || a.FlashEnd? || a.Close?
    requires uid in w.locks
    ensures uid in Step(w, a).locks <==> !EndsLock(w, a, uid)
    ensures uid in Step(w, a).locks ==> Step(w, a).locks[uid] == w.locks[uid]
  {
    PluggedInMeansScanned(w, uid);
    hide DoConnect, DoLock, DoStreamCheck, DoDialResult, DoStreamDiscard, DoFlashCheck, DoSessionGone, DoForceUnlock,
        DoRegister, DoDetachBoard, DoRescan, DoScanAttach, DoScanDetach, Probed, Blanked, AfterStep, LocalDead,
        RemoteDead, Bereft, MayUse, Found, IsPluggedIn, IsGoneHere;
  }

  lemma RevokingStepsAndLocks(w: World, a: Action, uid: Uid)
    requires a.SweepLocal? || a.SweepRemote? || a.ForceUnlock? || a.DetachBoard? || a.ScanDetach?
    requires uid in w.locks
    ensures uid in Step(w, a).locks <==> !EndsLock(w, a, uid)
    ensures uid in Step(w, a).locks ==> Step(w, a).locks[uid] == w.locks[uid]
  {
    PluggedInMeansScanned(w, uid);
    hide Bereft, MayUse, Found, IsPluggedIn, ScannedBefore, VirtualRemoved;
  }

  /** A free uid is locked by exactly one kind of step, and by whom and as what it asks for. */
  lemma LockStartsIff(w: World, a: Action, uid: Uid)
    requires uid !in w.locks
    ensures uid in Step(w, a).locks <==> a.Lock? && a.uid == uid && MayUse(w, a.c, uid) && !IsGoneHere(w, uid)
    ensures uid in Step(w, a).locks ==> Step(w, a).locks[uid] == L.LockStatus(a.kind, w.conns[a.c].holder, a.lockLabel, a.now)
  {
    PluggedInMeansScanned(w, uid);
    hide MayUse, IsGoneHere, IsPluggedIn;
    if OnlyStoreChanges(a) {
      StoreStepsKeepLocksAndConns(w, a);
    } else if a.Lock? {
      hide Found;
    } else {
      FreeStaysFree(w, a, uid);
    }
  }

  lemma FreeStaysFree(w: World, a: Action, uid: Uid)
    requires uid !in w.locks && !a.Lock? && !OnlyStoreChanges(a)
    ensures uid !in Step(w, a).locks
  {
    hide Bereft, Visible, IsVirtual, IsDetached, MatchesBoardNameRe, IsReservedName, KeyOf, Found, HoldsLock, LocalDead, RemoteDead, ReleasedOnClose,
      ScannedBefore, VirtualRemoved;
  }

  // ----- connections -----

  /** May the connection start to stream? Its own serial or relay lock, a port that is known, a board that is not gone. */
  predicate MayStream(w: World, c: ConnId, uid: Uid) {
    && MayUse(w, c, uid) && !IsGoneHere(w, uid)
    && uid in w.locks && w.locks[uid].holder == w.conns[c].holder && (w.locks[uid].kind == L.Serial || w.locks[uid].kind == L.Relay)
    && w.devices[uid].port.Some? && w.devices[uid].port.value != ""
  }

  predicate MayFlash(w: World, c: ConnId, uid: Uid) {
    && MayUse(w, c, uid) && !IsGoneHere(w, uid)
    && uid in w.locks && w.locks[uid].holder == w.conns[c].holder && w.locks[uid].kind == L.Flash
  }

  predicate MayRegister(w: World, c: ConnId, name: string) {
    && c in w.conns && w.conns[c].activity == Ready && w.conns[c].holder.Local?
    && MatchesBoardNameRe(name) && !IsReservedName(name) && RadioNames.Lower(name) !in w.boards
  }

  /** What an open connection does after a step. */
  function ActivityAfter(w: World, a: Action, c: ConnId): Activity
    requires c in w.conns
  {
    var was := w.conns[c].activity;
    match a
    case StreamCheck(d, u) =>
      if d == c && MayStream(w, c, u) then (if IsPluggedIn(w, u) || w.devices[u].host.Some? then Streaming(u) else Dialing(u)) else was
    case DialResult(d, accepted) => if d == c && was.Dialing? then (if accepted then Streaming(was.uid) else Ready) else was
    case StreamRelease(d) => if d == c && was.Streaming? then StreamReleased(was.uid) else was
    case StreamDiscard(d) => if d == c && was.StreamReleased? then Ending else was
    case FlashCheck(d, u) => if d == c && MayFlash(w, c, u) then Flashing(u) else was
    case FlashEnd(d) => if d == c && was.Flashing? then Ready else was
    case Register(d, name, _, _) => if d == c && MayRegister(w, c, name) then HoldingBoard else was
    case _ => was
  }

  /** The uids an open connection will release on closing, after a step. */
  function AcquiredAfter(w: World, a: Action, c: ConnId): set<Uid>
    requires c in w.conns
  {
    var had := w.conns[c].acquired;
    match a
    case Lock(d, u, _, _, _) => if d == c && MayUse(w, c, u) && !IsGoneHere(w, u) && u !in w.locks then had + {u} else had
    case Unlock(d, u) => if d == c && MayUse(w, c, u) then had - {u} else had
    case StreamDiscard(d) => if d == c && w.conns[c].activity.StreamReleased? then had - {w.conns[c].activity.uid} else had
    case FlashEnd(d) => if d == c && w.conns[c].activity.Flashing? then had - {w.conns[c].activity.uid} else had
    case _ => had
  }

  lemma ConnectionAfterStep(w: World, a: Action, c: ConnId)
    requires c in w.conns
    ensures c in Step(w, a).conns <==> a != Close(c)
    ensures a != Close(c) ==>
              var k := Step(w, a).conns[c];
              k.holder == w.conns[c].holder && k.activity == ActivityAfter(w, a, c) && k.acquired == AcquiredAfter(w, a, c)
  {
    if OnlyStoreChanges(a) {
      StoreStepsKeepLocksAndConns(w, a);
    } else if a.SweepLocal? || a.SweepRemote? || a.ForceUnlock? || a.DetachBoard? || a.ScanDetach? {
      RevokingStepsAndConns(w, a, c);
    } else if a.Unlock? || a.StreamRelease? || a.FlashEnd? || a.Close? {
      OwnStepsAndConns(w, a, c);
    } else {
      StartingStepsAndConns(w, a, c);
    }
  }

  lemma RevokingStepsAndConns(w: World, a: Action, c: ConnId)
    requires a.SweepLocal? || a.SweepRemote? || a.ForceUnlock? || a.DetachBoard? || a.ScanDetach?
    requires c in w.conns
    ensures c in Step(w, a).conns && Step(w, a).conns[c] == w.conns[c].(lost := Step(w, a).conns[c].lost)
  {
    hide Freed, ScannedBefore, VirtualRemoved, LocalDead, RemoteDead;
    FreedKeepsConns(w, if a.SweepLocal? then LocalDead(w, a.dead) else if a.SweepRemote? then RemoteDead(w)
                       else if a.DetachBoard? then (if a.key in w.boards then {UidOf(w.boards[a.key])} else {}) else {a.uid});
  }

  lemma OwnStepsAndConns(w: World, a: Action, c: ConnId)
    requires a.Unlock? || a.StreamRelease? || a.FlashEnd? || a.Close?
    requires c in w.conns
    ensures c in Step(w, a).conns <==> a != Close(c)
    ensures a != Close(c) ==>
              var k := Step(w, a).conns[c];
              k.holder == w.conns[c].holder && k.activity == ActivityAfter(w, a, c) && k.acquired == AcquiredAfter(w, a, c)
  {
    hide DoConnect, DoLock, DoStreamCheck, DoDialResult, DoStreamDiscard, DoFlashCheck, DoSessionGone, DoForceUnlock,
        DoRegister, DoDetachBoard, DoRescan, DoScanAttach, DoScanDetach, Probed, Blanked, AfterStep, LocalDead,
        RemoteDead, Bereft, MayUse, Found, ReleasedOnClose, IsPluggedIn, IsGoneHere, MayStream, MayFlash, MayRegister;
    PluggedInMeansScanned(w, if a.Unlock? then a.uid else "");
    if a.Close? && a.c in w.conns {
      FreedKeepsConns(w, ReleasedOnClose(w, a.c));
    }
  }

  lemma StartingStepsAndConns(w: World, a: Action, c: ConnId)
    requires a.Connect? || a.Lock? || a.StreamCheck? || a.DialResult? || a.StreamDiscard? || a.FlashCheck? || a.Register?
    requires c in w.conns
    ensures c in Step(w, a).conns
    ensures var k := Step(w, a).conns[c];
            k.holder == w.conns[c].holder && k.activity == ActivityAfter(w, a, c) && k.acquired == AcquiredAfter(w, a, c)
  {
    hide Step, ActivityAfter, AcquiredAfter;
    if a.Lock? || a.StreamCheck? || a.FlashCheck? {
      UsesAndConns(w, a, c);
    } else if a.Register? {
      RegisterAndConns(w, a, c);
    } else {
      ConnectAndDialAndConns(w, a, c);
    }
  }

  lemma ConnectAndDialAndConns(w: World, a: Action, c: ConnId)
    requires a.Connect? || a.DialResult? || a.StreamDiscard?
    requires c in w.conns
    ensures c in Step(w, a).conns
    ensures var k := Step(w, a).conns[c];
            k.holder == w.conns[c].holder && k.activity == ActivityAfter(w, a, c) && k.acquired == AcquiredAfter(w, a, c)
  {
    hide Step, ActivityAfter, AcquiredAfter;
    if a.DialResult? {
      DialAndConns(w, a, c);
    } else {
      ConnectAndConns(w, a, c);
    }
  }

  lemma DialAndConns(w: World, a: Action, c: ConnId)
    requires a.DialResult?
    requires c in w.conns
    ensures c in Step(w, a).conns
    ensures var k := Step(w, a).conns[c];
            k.holder == w.conns[c].holder && k.activity == ActivityAfter(w, a, c) && k.acquired == AcquiredAfter(w, a, c)
  {
    hide DoLock, DoUnlock, DoStreamCheck, DoStreamRelease, DoFlashCheck, DoFlashEnd, DoConnect, DoStreamDiscard, DoClose, DoSessionGone,
        DoForceUnlock, DoRegister, DoDetachBoard, DoRescan, DoScanAttach, DoScanDetach, Freed, Probed, Blanked,
        AfterStep, LocalDead, RemoteDead, MayRegister, MayUse, MayStream, MayFlash, IsGoneHere, IsPluggedIn;
    assert Step(w, a) == DoDialResult(w, a.c, a.accepted);
    hide Step;
  }

  lemma ConnectAndConns(w: World, a: Action, c: ConnId)
    requires a.Connect? || a.StreamDiscard?
    requires c in w.conns
    ensures c in Step(w, a).conns
    ensures var k := Step(w, a).conns[c];
            k.holder == w.conns[c].holder && k.activity == ActivityAfter(w, a, c) && k.acquired == AcquiredAfter(w, a, c)
  {
    hide DoLock, DoUnlock, DoStreamCheck, DoStreamRelease, DoFlashCheck, DoFlashEnd, DoDialResult, DoClose, DoSessionGone,
        DoForceUnlock, DoRegister, DoDetachBoard, DoRescan, DoScanAttach, DoScanDetach, Freed, Probed, Blanked,
        AfterStep, LocalDead, RemoteDead, MayRegister, MayUse, MayStream, MayFlash, IsGoneHere, IsPluggedIn;
  }

  lemma RegisterAndConns(w: World, a: Action, c: ConnId)
    requires a.Register? && c in w.conns
    ensures c in Step(w, a).conns
    ensures var k := Step(w, a).conns[c];
            k.holder == w.conns[c].holder && k.activity == ActivityAfter(w, a, c) && k.acquired == AcquiredAfter(w, a, c)
  {
    hide DoConnect, DoLock, DoUnlock, DoStreamCheck, DoDialResult, DoStreamRelease, DoStreamDiscard, DoFlashCheck,
        DoFlashEnd, DoClose, DoSessionGone, DoForceUnlock, DoDetachBoard, DoRescan, DoScanAttach, DoScanDetach,
        Freed, Probed, Blanked, AfterStep, LocalDead, RemoteDead, MatchesBoardNameRe, IsReservedName, VirtualRow,
        MayUse, MayStream, MayFlash, IsGoneHere, IsPluggedIn, AcquiredAfter;
    NothingAcquired(w, a, c);
  }

  lemma NothingAcquired(w: World, a: Action, c: ConnId)
    requires c in w.conns && a.Register?
    ensures AcquiredAfter(w, a, c) == w.conns[c].acquired
  {
  }

  lemma UsesAndConns(w: World, a: Action, c: ConnId)
    requires a.Lock? || a.StreamCheck? || a.FlashCheck?
    requires c in w.conns
    ensures c in Step(w, a).conns
    ensures var k := Step(w, a).conns[c];
            k.holder == w.conns[c].holder && k.activity == ActivityAfter(w, a, c) && k.acquired == AcquiredAfter(w, a, c)
  {
    hide Step, ActivityAfter, AcquiredAfter;
    if a.Lock? {
      LockAndConns(w, a, c);
    } else if a.StreamCheck? {
      StreamCheckAndConns(w, a, c);
    } else {
      FlashCheckAndConns(w, a, c);
    }
  }

  lemma LockAndConns(w: World, a: Action, c: ConnId)
    requires a.Lock?
    requires c in w.conns
    ensures c in Step(w, a).conns
    ensures var k := Step(w, a).conns[c];
            k.holder == w.conns[c].holder && k.activity == ActivityAfter(w, a, c) && k.acquired == AcquiredAfter(w, a, c)
  {
    PluggedInMeansScanned(w, a.uid);
    hide MayUse, Found, IsGoneHere, DoConnect, DoUnlock, DoStreamCheck, DoDialResult, DoStreamRelease, DoStreamDiscard, DoFlashCheck, DoFlashEnd,
      DoClose, DoSessionGone, DoForceUnlock, DoRegister, DoDetachBoard, DoRescan, DoScanAttach, DoScanDetach,
      Freed, Probed, Blanked, AfterStep, LocalDead, RemoteDead, IsPluggedIn, MayStream, MayFlash, MayRegister;
  }

  lemma StreamCheckAndConns(w: World, a: Action, c: ConnId)
    requires a.StreamCheck?
    requires c in w.conns
    ensures c in Step(w, a).conns
    ensures var k := Step(w, a).conns[c];
            k.holder == w.conns[c].holder && k.activity == ActivityAfter(w, a, c) && k.acquired == AcquiredAfter(w, a, c)
  {
    PluggedInMeansScanned(w, a.uid);
    hide MayUse, Found, IsGoneHere, DoConnect, DoLock, DoUnlock, DoDialResult, DoStreamRelease, DoStreamDiscard, DoFlashCheck, DoFlashEnd, DoClose,
      DoSessionGone, DoForceUnlock, DoRegister, DoDetachBoard, DoRescan, DoScanAttach, DoScanDetach, Freed, Probed,
      Blanked, AfterStep, LocalDead, RemoteDead, MayFlash, MayRegister;
  }

  lemma FlashCheckAndConns(w: World, a: Action, c: ConnId)
    requires a.FlashCheck?
    requires c in w.conns
    ensures c in Step(w, a).conns
    ensures var k := Step(w, a).conns[c];
            k.holder == w.conns[c].holder && k.activity == ActivityAfter(w, a, c) && k.acquired == AcquiredAfter(w, a, c)
  {
    PluggedInMeansScanned(w, a.uid);
    hide MayUse, Found, IsGoneHere, DoConnect, DoLock, DoUnlock, DoStreamCheck, DoDialResult, DoStreamRelease, DoStreamDiscard, DoFlashEnd, DoClose,
      DoSessionGone, DoForceUnlock, DoRegister, DoDetachBoard, DoRescan, DoScanAttach, DoScanDetach, Freed, Probed,
      Blanked, AfterStep, LocalDead, RemoteDead, MayStream, MayRegister, IsPluggedIn;
  }

  /** A connection appears only by being accepted, a remote one with a session nobody has; it starts with nothing. */
  lemma ConnectionsAreAccepted(w: World, a: Action, c: ConnId)
    requires c !in w.conns
    ensures c in Step(w, a).conns <==> a.Connect? && a.c == c && !(a.holder.Remote? && a.holder.session in w.live)
    ensures c in Step(w, a).conns ==> Step(w, a).conns[c] == Conn(a.holder, {}, Ready, false)
  {
    if OnlyStoreChanges(a) {
      StoreStepsKeepLocksAndConns(w, a);
    } else if !a.Connect? {
      NobodyElseConnects(w, a, c);
    }
  }

  lemma NobodyElseConnects(w: World, a: Action, c: ConnId)
    requires c !in w.conns && !a.Connect? && !OnlyStoreChanges(a)
    ensures c !in Step(w, a).conns
  {
    hide Bereft, Visible, IsVirtual, IsDetached, MatchesBoardNameRe, IsReservedName, KeyOf, HoldsLock, LocalDead, RemoteDead, ReleasedOnClose,
      ScannedBefore, VirtualRemoved;
  }

  /** A session is live from being accepted until it is dropped with no connection of it left. */
  lemma SessionsComeAndGo(w: World, a: Action, session: string)
    ensures session in Step(w, a).live
            <==> (session in w.live || (a.Connect? && a.holder.Remote? && a.holder.session == session && a.c !in w.conns))
                 && !(a == SessionGone(session)
                      && forall c :: c in w.conns ==> !(w.conns[c].holder.Remote? && w.conns[c].holder.session == session))
  {
    if !a.Connect? && !a.SessionGone? {
      LiveIsKept(w, a);
    }
  }

  // ----- rows -----

  function RowOf(d: Devices, uid: Uid): Option<Row> {
    if uid in d then Some(d[uid]) else None
  }

  /** A row no board stands behind: this registry's own that is gone, an unreachable peer's, or a reachable peer's that is gone there. */
  predicate IsStale(r: Row, peers: map<Host, bool>) {
    match r.host
    case None => r.state == Disconnected
    case Some(h) => h in peers && (r.state == Disconnected || !peers[h])
  }

  /** A board newly seen on a port. One that was gone, or is unknown, has still to be probed. */
  function SeenOn(r: Option<Row>, port: string, vidPid: string): Row {
    match r
    case None => Row(Some(port), Some(vidPid), AttachedUnprobed, None, false, None, None)
    case Some(r) =>
      if r.state == Disconnected then r.(port := Some(port), vidPid := Some(vidPid), host := None, state := AttachedUnprobed, probed := false)
      else r.(port := Some(port), vidPid := Some(vidPid), host := None)
  }

  predicate MayAttach(w: World, uid: Uid, vidPid: string) {
    !("sim-" <= uid) && vidPid != "virtual" && !IsPluggedIn(w, uid)
  }

  /** The row of a uid after a step that is not a peer's. */
  function RowAfter(w: World, a: Action, uid: Uid): Option<Row> {
    var was := RowOf(w.devices, uid);
    match a
    case Register(c, name, role, serial) =>
      if uid == "sim-" + name && MayRegister(w, c, name)
      then Some(Row(Some("virtual:" + name), Some("virtual"), Connected, None, true, Some(Announcement(role, "robot", name, serial, "")), None))
      else was
    case DetachBoard(key) =>
      if key in w.boards && "sim-" + w.boards[key] == uid && was.Some? && IsVirtual(was.value) then None else was
    case Rescan => if was.Some? && uid !in w.locks && IsStale(was.value, w.peers) then None else was
    case ScanAttach(u, port, vidPid, granted) =>
      if u == uid && granted && MayAttach(w, uid, vidPid) then Some(SeenOn(was, port, vidPid)) else was
    case ScanDetach(u) => if u == uid && IsPluggedIn(w, uid) then Some(was.value.(state := Disconnected)) else was
    case GiveUpReprobe(u) =>
      if u == uid && was.Some? && !("sim-" <= uid) then Some(was.value.(state := ConnectedNoFirmware, probed := true)) else was
    case ProbeDone(u, result) =>
      if u != uid || was.None? || "sim-" <= uid then was
      else if result.Some? then Some(was.value.(announced := result, state := Connected, probed := true))
      else Some(was.value.(state := AttachedNoAnnounce, probed := true))
    case _ => was
  }

  lemma RowAfterStep(w: World, a: Action, uid: Uid)
    requires !a.Peer?
    ensures RowOf(Step(w, a).devices, uid) == RowAfter(w, a, uid)
  {
    if a.Register? || a.DetachBoard? {
      BoardStepsAndRows(w, a, uid);
    } else if a.ScanAttach? || a.ScanDetach? {
      ScansAndRows(w, a, uid);
    } else if a.Rescan? || a.GiveUpReprobe? || a.ProbeDone? {
      ProbesAndRows(w, a, uid);
    } else {
      hide Step;
      if a.SessionGone? || a.PeerReachable? {
        QuietStepsLeaveClaims(w, a);
      } else {
        OtherStepsLeaveStoreAlone(w, a);
      }
    }
  }

  lemma BoardStepsAndRows(w: World, a: Action, uid: Uid)
    requires a.Register? || a.DetachBoard?
    ensures RowOf(Step(w, a).devices, uid) == RowAfter(w, a, uid)
  {
    hide Bereft, MatchesBoardNameRe, IsReservedName, IsVirtual;
  }

  lemma ScansAndRows(w: World, a: Action, uid: Uid)
    requires a.ScanAttach? || a.ScanDetach?
    ensures RowOf(Step(w, a).devices, uid) == RowAfter(w, a, uid)
  {
    hide Bereft, ScannedBefore, IsPluggedIn;
    PluggedInMeansScanned(w, a.uid);
    if a.ScanDetach? && ScannedBefore(w, a.uid) {
      ScannedIsKnown(w, a.uid);
    }
  }

  lemma ScannedIsKnown(w: World, uid: Uid)
    requires ScannedBefore(w, uid)
    ensures uid in w.devices
  {
  }

  lemma ProbesAndRows(w: World, a: Action, uid: Uid)
    requires a.Rescan? || a.GiveUpReprobe? || a.ProbeDone?
    ensures RowOf(Step(w, a).devices, uid) == RowAfter(w, a, uid)
  {
    hide Step;
    if a.Rescan? {
      RescanStep(w);
      StaleRowsAreCandidates(w, uid);
      hide IsCandidate, IsStale;
    } else {
      ProbeSteps(w, a);
    }
  }

  lemma RescanStep(w: World)
    ensures Step(w, Rescan).devices == map u | u in w.devices && !(u !in w.locks && IsCandidate(w.devices[u], w.peers)) :: w.devices[u]
  {
    hide IsCandidate, Purgeable;
    forall u | u in w.devices ensures IsCandidate(w.devices[u], w.peers) ==> Purgeable(w.devices[u], w.peers) {
      CandidatesArePurgeable(w.devices[u], w.peers);
    }
  }

  lemma StaleRowsAreCandidates(w: World, uid: Uid)
    ensures uid in w.devices ==> (IsCandidate(w.devices[uid], w.peers) <==> IsStale(w.devices[uid], w.peers))
  {
  }

  lemma ProbeSteps(w: World, a: Action)
    requires a.GiveUpReprobe? || a.ProbeDone?
    ensures Step(w, a).devices == if "sim-" <= a.uid then w.devices else if a.ProbeDone? then Probed(w.devices, a.uid, a.result) else Blanked(w.devices, a.uid)
  {
    hide DoConnect, DoLock, DoUnlock, DoStreamCheck, DoDialResult, DoStreamRelease, DoStreamDiscard, DoFlashCheck,
        DoFlashEnd, DoClose, DoSessionGone, DoForceUnlock, DoRegister, DoDetachBoard, DoRescan, DoScanAttach,
        DoScanDetach, Freed, Probed, Blanked, AfterStep, LocalDead, RemoteDead;
  }

  /** A rescan also forgets the unreachable peers; otherwise a peer's reachability is what was last reported. */
  lemma PeersAfterStep(w: World, a: Action, host: Host)
    ensures host in Step(w, a).peers
            <==> (a.PeerReachable? && a.host == host) || (host in w.peers && !(a.Rescan? && !w.peers[host]))
    ensures host in Step(w, a).peers ==>
              Step(w, a).peers[host] == if a.PeerReachable? && a.host == host then a.reachable else w.peers[host]
  {
    if a.Rescan? || a.PeerReachable? {
      hide DoConnect, DoLock, DoUnlock, DoStreamCheck, DoDialResult, DoStreamRelease, DoStreamDiscard, DoFlashCheck,
          DoFlashEnd, DoClose, DoSessionGone, DoForceUnlock, DoRegister, DoDetachBoard, DoScanAttach, DoScanDetach,
          Freed, Probed, Blanked, AfterStep, LocalDead, RemoteDead, RescanUids, Purged;
    } else {
      PeersAreKept(w, a);
    }
  }

  lemma PeersAreKept(w: World, a: Action)
    requires !a.Rescan? && !a.PeerReachable?
    ensures Step(w, a).peers == w.peers
  {
    hide Bereft, Visible, IsVirtual, IsDetached, MatchesBoardNameRe, IsReservedName, KeyOf, Found, HoldsLock, LocalDead, RemoteDead, ReleasedOnClose,
      ScannedBefore, VirtualRemoved, Upserted, Probed, Blanked, AfterStep, SessionOpen, DoRescan;
  }

  // ----- boards and claims -----

  lemma BoardsAfterStep(w: World, a: Action, key: string)
    ensures var registers := a.Register? && MayRegister(w, a.c, a.name) && key == RadioNames.Lower(a.name);
            && (key in Step(w, a).boards <==> registers || (key in w.boards && a != DetachBoard(key)))
            && (key in Step(w, a).boards ==> Step(w, a).boards[key] == if registers then a.name else w.boards[key])
  {
    if a.Register? || a.DetachBoard? {
      hide Bereft, MatchesBoardNameRe, IsReservedName, IsVirtual;
    } else {
      hide Step;
      if OnlyStoreChanges(a) {
        StoreStepsKeepLocksAndConns(w, a);
      } else if a.ScanDetach? {
        ScanLeavesBoards(w, a);
      } else {
        OtherStepsLeaveStoreAlone(w, a);
      }
    }
  }

  lemma ScanLeavesBoards(w: World, a: Action)
    requires a.ScanDetach?
    ensures Step(w, a).boards == w.boards
  {
    hide Bereft, ScannedBefore;
  }

  /** A claim is taken for a newly seen board and given back when it is gone; each grant gets a handle of its own. */
  lemma ClaimsAfterStep(w: World, a: Action, uid: Uid)
    ensures var takes := a.ScanAttach? && a.grant && MayAttach(w, a.uid, a.vidPid);
            var gives := a.ScanDetach? && IsPluggedIn(w, a.uid) && a.uid in w.claims;
            && (uid in Step(w, a).claims <==> (takes && a.uid == uid) || (uid in w.claims && !(gives && a.uid == uid)))
            && (uid in Step(w, a).claims ==> Step(w, a).claims[uid] == if takes && a.uid == uid then w.granted else w.claims[uid])
            && Step(w, a).granted == (if takes then w.granted + 1 else w.granted)
            && Step(w, a).returned == (if gives then w.returned + [w.claims[a.uid]] else w.returned)
  {
    if a.ScanAttach? || a.ScanDetach? {
      hide Bereft, ScannedBefore, IsPluggedIn;
      PluggedInMeansScanned(w, a.uid);
    } else {
      hide Step;
      if OnlyStoreChanges(a) {
        StoreStepsKeepLedger(w, a);
      } else if a.Register? || a.DetachBoard? {
        BoardStepsKeepLedger(w, a);
      } else {
        OtherStepsLeaveStoreAlone(w, a);
      }
    }
  }
}
