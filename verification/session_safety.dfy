/** What the session protocol guarantees in every reachable state. */
module SessionSafety {
  import opened Options
  import opened DeviceStore
  import opened Peering
  import opened VirtualBoardTable
  import opened Sessions
  import L = Locks

  // ----- locks are owned by open connections -----

  lemma FreedKeepsOwners(w: World, uids: set<Uid>)
    requires LocksAreOwned(w)
    ensures LocksAreOwned(Freed(w, uids))
  {
    var w' := Freed(w, uids);
    forall u | u in w'.locks ensures exists c :: c in w'.conns && Owns(w'.conns[c], u, w'.locks[u].holder) {
      var c :| c in w.conns && Owns(w.conns[c], u, w.locks[u].holder);
      assert Owns(w'.conns[c], u, w'.locks[u].holder);
    }
  }

  /** A connection may change in any way that keeps its claim to the locks it owns. */
  lemma ConnChangeKeepsOwners(w: World, c: ConnId, k: Conn)
    requires LocksAreOwned(w)
    requires c in w.conns ==> forall u :: u in w.locks && Owns(w.conns[c], u, w.locks[u].holder) ==> Owns(k, u, w.locks[u].holder)
    ensures LocksAreOwned(WithConn(w, c, k))
  {
    forall u | u in w.locks ensures exists d :: d in WithConn(w, c, k).conns && Owns(WithConn(w, c, k).conns[d], u, w.locks[u].holder) {
      var d :| d in w.conns && Owns(w.conns[d], u, w.locks[u].holder);
      assert Owns(WithConn(w, c, k).conns[d], u, w.locks[u].holder);
    }
  }

  lemma ReleaseKeepsOwners(w: World, c: ConnId, uid: Uid, k: Conn)
    requires LocksAreOwned(w) && c in w.conns && k.holder == w.conns[c].holder
    requires w.conns[c].acquired - {uid} <= k.acquired
    requires k.activity == w.conns[c].activity || k.activity == StreamReleased(uid) || k.activity == Ready
    ensures LocksAreOwned(WithConn(ReleasedBy(w, k.holder, uid), c, k))
  {
    FreedKeepsOwners(w, {uid});
    ConnChangeKeepsOwners(ReleasedBy(w, k.holder, uid), c, k);
  }

  lemma CloseKeepsOwners(w: World, c: ConnId)
    requires LocksAreOwned(w)
    ensures LocksAreOwned(DoClose(w, c))
  {
    if c in w.conns {
      var w' := DoClose(w, c);
      forall u | u in w'.locks ensures exists d :: d in w'.conns && Owns(w'.conns[d], u, w'.locks[u].holder) {
        var d :| d in w.conns && Owns(w.conns[d], u, w.locks[u].holder);
        assert d != c;
        assert Owns(w'.conns[d], u, w'.locks[u].holder);
      }
    }
  }

  lemma LockKeepsOwners(w: World, c: ConnId, uid: Uid, kind: L.Kind, lockLabel: Option<string>, now: int)
    requires LocksAreOwned(w)
    ensures LocksAreOwned(DoLock(w, c, uid, kind, lockLabel, now))
  {
    hide IsDetached, Visible;
    var w' := DoLock(w, c, uid, kind, lockLabel, now);
    if w' != w {
      var k := w.conns[c];
      ConnChangeKeepsOwners(w, c, k.(acquired := k.acquired + {uid}));
      assert Owns(w'.conns[c], uid, w'.locks[uid].holder);
      forall u | u in w'.locks && u != uid ensures exists d :: d in w'.conns && Owns(w'.conns[d], u, w'.locks[u].holder) {
        assert u in w.locks;
      }
    }
  }

  /** Steps of one connection that end its use of a lock. */
  lemma EndingStepsKeepOwners(w: World, c: ConnId, uid: Uid)
    requires LocksAreOwned(w)
    ensures LocksAreOwned(DoUnlock(w, c, uid)) && LocksAreOwned(DoStreamRelease(w, c)) && LocksAreOwned(DoFlashEnd(w, c))
  {
    hide LocksAreOwned, Freed, Visible, ReleasedBy;
    if Found(w, c, uid) {
      ReleaseKeepsOwners(w, c, uid, w.conns[c].(acquired := w.conns[c].acquired - {uid}));
    }
    if c in w.conns && w.conns[c].activity.Streaming? {
      var k := w.conns[c];
      ReleaseKeepsOwners(w, c, k.activity.uid, k.(activity := StreamReleased(k.activity.uid), lost := false));
    }
    if c in w.conns && w.conns[c].activity.Flashing? {
      var k := w.conns[c];
      ReleaseKeepsOwners(w, c, k.activity.uid, k.(acquired := k.acquired - {k.activity.uid}, activity := Ready, lost := false));
    }
  }

  /** Steps of one connection that touch no lock. */
  lemma ChecksKeepOwners(w: World, c: ConnId, uid: Uid)
    requires LocksAreOwned(w)
    ensures LocksAreOwned(DoStreamCheck(w, c, uid)) && LocksAreOwned(DoFlashCheck(w, c, uid))
  {
    hide LocksAreOwned, IsVirtual, IsDetached, Visible;
    if c in w.conns {
      ConnChangeKeepsOwners(w, c, DoStreamCheck(w, c, uid).conns[c]);
      ConnChangeKeepsOwners(w, c, DoFlashCheck(w, c, uid).conns[c]);
    }
  }

  lemma DialAndDiscardKeepOwners(w: World, c: ConnId, accepted: bool)
    requires LocksAreOwned(w)
    ensures LocksAreOwned(DoDialResult(w, c, accepted)) && LocksAreOwned(DoStreamDiscard(w, c))
  {
    hide LocksAreOwned;
    if c in w.conns {
      ConnChangeKeepsOwners(w, c, DoDialResult(w, c, accepted).conns[c]);
      ConnChangeKeepsOwners(w, c, DoStreamDiscard(w, c).conns[c]);
    }
  }

  lemma ConnectAndRegisterKeepOwners(w: World, c: ConnId, h: L.HolderRef, name: string, role: string, serial: string)
    requires LocksAreOwned(w)
    ensures LocksAreOwned(DoConnect(w, c, h)) && LocksAreOwned(DoRegister(w, c, name, role, serial))
  {
    hide LocksAreOwned, MatchesBoardNameRe, IsReservedName, VirtualRow, KeyOf, UidOf;
    if DoConnect(w, c, h) != w {
      ConnChangeKeepsOwners(w, c, Conn(h, {}, Ready, false));
      OwnersDependOnLocksAndConns(WithConn(w, c, Conn(h, {}, Ready, false)), DoConnect(w, c, h));
    }
    if DoRegister(w, c, name, role, serial) != w {
      var k := w.conns[c].(activity := HoldingBoard);
      ConnChangeKeepsOwners(w, c, k);
      OwnersDependOnLocksAndConns(WithConn(w, c, k), DoRegister(w, c, name, role, serial));
    }
  }

  /** Steps that free locks whoever holds them. */
  lemma RevokingStepsKeepOwners(w: World, uid: Uid, key: string, dead: set<int>)
    requires LocksAreOwned(w)
    ensures LocksAreOwned(DoForceUnlock(w, uid)) && LocksAreOwned(DoDetachBoard(w, key)) && LocksAreOwned(DoScanDetach(w, uid))
    ensures LocksAreOwned(Freed(w, LocalDead(w, dead))) && LocksAreOwned(Freed(w, RemoteDead(w)))
  {
    hide LocksAreOwned, Freed, IsVirtual, VirtualRemoved, LocalDead, RemoteDead, ScannedBefore;
    FreedKeepsOwners(w, {uid});
    FreedKeepsOwners(w, LocalDead(w, dead));
    FreedKeepsOwners(w, RemoteDead(w));
    OwnersDependOnLocksAndConns(if ScannedBefore(w, uid) then Freed(w, {uid}) else w, DoScanDetach(w, uid));
    if key in w.boards {
      FreedKeepsOwners(w, {UidOf(w.boards[key])});
      OwnersDependOnLocksAndConns(Freed(w, {UidOf(w.boards[key])}), DoDetachBoard(w, key));
    }
  }

  predicate OnlyStoreChanges(a: Action) {
    a.SessionGone? || a.Rescan? || a.ScanAttach? || a.GiveUpReprobe? || a.ProbeDone? || a.Peer? || a.PeerReachable?
  }

  lemma StoreStepsKeepLocksAndConns(w: World, a: Action)
    requires OnlyStoreChanges(a)
    ensures Step(w, a).locks == w.locks && Step(w, a).conns == w.conns && Step(w, a).boards == w.boards
  {
    hide LocallyAttached, IsVirtual, IsVirtualUid, Purged, AfterStep, Upserted, RescanUids, Blanked, Probed, SessionOpen, Freed, DoConnect, DoLock,
      DoUnlock, DoStreamCheck, DoDialResult, DoStreamRelease, DoStreamDiscard, DoFlashCheck, DoFlashEnd, DoClose, DoForceUnlock, DoRegister,
      DoDetachBoard, DoScanDetach, LocalDead, RemoteDead;
  }

  lemma StepKeepsOwners(w: World, a: Action)
    requires LocksAreOwned(w)
    ensures LocksAreOwned(Step(w, a))
  {
    hide LocksAreOwned, Freed, DoConnect, DoLock, DoUnlock, DoStreamCheck, DoDialResult, DoStreamRelease, DoStreamDiscard, DoFlashCheck,
      DoFlashEnd, DoClose, DoSessionGone, DoForceUnlock, DoRegister, DoDetachBoard, DoRescan, DoScanAttach, DoScanDetach, LocalDead,
      RemoteDead, Blanked, Probed, AfterStep, IsVirtualUid;
    match a {
      case Lock(c, uid, kind, lockLabel, now) => LockKeepsOwners(w, c, uid, kind, lockLabel, now);
      case Unlock(c, uid) => EndingStepsKeepOwners(w, c, uid);
      case StreamRelease(c) => EndingStepsKeepOwners(w, c, "");
      case FlashEnd(c) => EndingStepsKeepOwners(w, c, "");
      case Close(c) => CloseKeepsOwners(w, c);
      case Connect(c, h) => ConnectAndRegisterKeepOwners(w, c, h, "", "", "");
      case StreamCheck(c, uid) => ChecksKeepOwners(w, c, uid);
      case DialResult(c, accepted) => DialAndDiscardKeepOwners(w, c, accepted);
      case StreamDiscard(c) => DialAndDiscardKeepOwners(w, c, false);
      case FlashCheck(c, uid) => ChecksKeepOwners(w, c, uid);
      case Register(c, name, role, serial) => ConnectAndRegisterKeepOwners(w, c, L.Local(0), name, role, serial);
      case SweepLocal(dead) => RevokingStepsKeepOwners(w, "", "", dead);
      case SweepRemote => RevokingStepsKeepOwners(w, "", "", {});
      case ForceUnlock(uid) => RevokingStepsKeepOwners(w, uid, "", {});
      case DetachBoard(key) => RevokingStepsKeepOwners(w, "", key, {});
      case ScanDetach(uid) => RevokingStepsKeepOwners(w, uid, "", {});
      case _ =>
        StoreStepsKeepLocksAndConns(w, a);
        OwnersDependOnLocksAndConns(w, Step(w, a));
    }
  }

  lemma OwnersDependOnLocksAndConns(w: World, w': World)
    requires w'.locks == w.locks && w'.conns == w.conns
    ensures LocksAreOwned(w) <==> LocksAreOwned(w')
  {
  }

  // ----- remote sessions -----

  /** No step but Connect adds a connection, and none changes a holder. */
  ghost predicate HoldersKept(w: World, w': World) {
    forall c :: c in w'.conns ==> c in w.conns && w'.conns[c].holder == w.conns[c].holder
  }

  lemma EndingStepsKeepHolders(w: World, c: ConnId, uid: Uid)
    ensures HoldersKept(w, DoUnlock(w, c, uid)) && HoldersKept(w, DoStreamRelease(w, c)) && HoldersKept(w, DoFlashEnd(w, c))
  {
    hide ReleasedBy, Visible;
    if c in w.conns {
      ReleasedKeepsConns(w, w.conns[c].holder, uid);
      if w.conns[c].activity.Streaming? || w.conns[c].activity.Flashing? {
        ReleasedKeepsConns(w, w.conns[c].holder, w.conns[c].activity.uid);
      }
    }
  }

  lemma ReleasedKeepsConns(w: World, h: L.HolderRef, uid: Uid)
    ensures HoldersKept(w, ReleasedBy(w, h, uid))
  {
    hide Freed;
    FreedKeepsConns(w, {uid});
  }

  lemma CloseKeepsHolders(w: World, c: ConnId)
    ensures HoldersKept(w, DoClose(w, c))
  {
    hide Freed, ReleasedOnClose;
    if c in w.conns {
      FreedKeepsConns(w, ReleasedOnClose(w, c));
    }
  }

  lemma PrivateStepsKeepHolders(w: World, a: Action)
    requires a.Lock? || a.StreamCheck? || a.DialResult? || a.StreamDiscard? || a.FlashCheck? || a.Register?
    ensures HoldersKept(w, Step(w, a)) && Step(w, a).live == w.live
  {
    hide Visible, IsVirtual, IsDetached, MatchesBoardNameRe, IsReservedName, KeyOf, VirtualRow;
  }

  lemma RevokingStepsKeepHolders(w: World, a: Action)
    requires a.SweepLocal? || a.SweepRemote? || a.ForceUnlock? || a.DetachBoard? || a.ScanDetach?
    ensures HoldersKept(w, Step(w, a))
  {
    hide Freed, IsVirtual, VirtualRemoved, LocalDead, RemoteDead, LocallyAttached;
    match a {
      case SweepLocal(dead) => FreedKeepsConns(w, LocalDead(w, dead));
      case SweepRemote => FreedKeepsConns(w, RemoteDead(w));
      case ForceUnlock(uid) => FreedKeepsConns(w, {uid});
      case DetachBoard(key) =>
        if key in w.boards {
          FreedKeepsConns(w, {UidOf(w.boards[key])});
        }
      case ScanDetach(uid) => FreedKeepsConns(w, {uid});
    }
  }

  lemma LiveIsKept(w: World, a: Action)
    requires !a.Connect? && !a.SessionGone?
    ensures Step(w, a).live == w.live
  {
    hide Bereft, LocallyAttached, IsVirtual, IsDetached, Purged, AfterStep, Upserted, Visible, MatchesBoardNameRe, IsReservedName, Blanked, Probed;
  }

  lemma SameHoldersKeepSessions(w: World, w': World)
    requires SessionsAreLive(w) && HoldersKept(w, w') && w'.live == w.live
    ensures SessionsAreLive(w')
  {
  }

  lemma ConnectKeepsSessions(w: World, c: ConnId, h: L.HolderRef, session: string)
    requires SessionsAreLive(w)
    ensures SessionsAreLive(DoConnect(w, c, h)) && SessionsAreLive(DoSessionGone(w, session))
  {
  }

  lemma StepKeepsSessions(w: World, a: Action)
    requires SessionsAreLive(w)
    ensures SessionsAreLive(Step(w, a))
  {
    hide SessionsAreLive, HoldersKept, DoConnect, DoLock, DoUnlock, DoStreamCheck, DoDialResult, DoStreamRelease, DoStreamDiscard,
      DoFlashCheck, DoFlashEnd, DoClose, DoSessionGone, DoForceUnlock, DoRegister, DoDetachBoard, DoRescan, DoScanAttach, DoScanDetach,
      Freed, LocalDead, RemoteDead, Blanked, Probed, AfterStep, IsVirtualUid;
    if a.Connect? {
      ConnectKeepsSessions(w, a.c, a.holder, "");
    } else if a.SessionGone? {
      ConnectKeepsSessions(w, 0, L.Local(0), a.session);
    } else {
      if a.Close? {
        CloseKeepsHolders(w, a.c);
      } else if a.Unlock? || a.StreamRelease? || a.FlashEnd? {
        EndingStepsKeepHolders(w, a.c, if a.Unlock? then a.uid else "");
      } else if a.SweepLocal? || a.SweepRemote? || a.ForceUnlock? || a.DetachBoard? || a.ScanDetach? {
        RevokingStepsKeepHolders(w, a);
      } else if OnlyStoreChanges(a) {
        StoreStepsKeepLocksAndConns(w, a);
        SameConnsKeepHolders(w, Step(w, a));
      } else {
        PrivateStepsKeepHolders(w, a);
      }
      LiveIsKept(w, a);
      SameHoldersKeepSessions(w, Step(w, a));
    }
  }

  lemma SameConnsKeepHolders(w: World, w': World)
    requires w'.conns == w.conns
    ensures HoldersKept(w, w')
  {
  }

  // ----- whoever works on a board holds its lock -----

  lemma FreedKeepsWorkers(w: World, uids: set<Uid>)
    requires WorkersHoldLocks(w)
    ensures WorkersHoldLocks(Freed(w, uids))
  {
    var w' := Freed(w, uids);
    forall c, u | c in w'.conns && ActiveOn(w'.conns[c], u) && !w'.conns[c].lost
      ensures u in w'.locks && w'.locks[u].holder == w'.conns[c].holder && KindFits(w'.conns[c], w'.locks[u].kind)
    {
      assert w'.conns[c] == w.conns[c].(lost := w'.conns[c].lost);
      assert ActiveOn(w.conns[c], u);
      assert !w.conns[c].lost;
      assert u in w.locks;
      assert u !in uids;
    }
  }

  predicate WorkerFits(w: World, k: Conn) {
    (k.activity.Dialing? || k.activity.Streaming? || k.activity.Flashing?) && !k.lost ==>
      var u := k.activity.uid;
      u in w.locks && w.locks[u].holder == k.holder && KindFits(k, w.locks[u].kind)
  }

  lemma ConnChangeKeepsWorkers(w: World, c: ConnId, k: Conn)
    requires WorkersHoldLocks(w) && WorkerFits(w, k)
    ensures WorkersHoldLocks(WithConn(w, c, k))
  {
  }

  lemma WorkersDependOnLocksAndConns(w: World, w': World)
    requires w'.locks == w.locks && w'.conns == w.conns
    ensures WorkersHoldLocks(w) <==> WorkersHoldLocks(w')
  {
  }

  lemma LockAndCloseKeepWorkers(w: World, c: ConnId, uid: Uid, kind: L.Kind, lockLabel: Option<string>, now: int)
    requires WorkersHoldLocks(w)
    ensures WorkersHoldLocks(DoLock(w, c, uid, kind, lockLabel, now)) && WorkersHoldLocks(DoClose(w, c))
  {
    hide IsDetached, Visible, Freed, ReleasedOnClose;
    if c in w.conns {
      FreedKeepsWorkers(w, ReleasedOnClose(w, c));
    }
  }

  lemma EndingStepsKeepWorkers(w: World, c: ConnId, uid: Uid)
    requires WorkersHoldLocks(w)
    ensures WorkersHoldLocks(DoUnlock(w, c, uid)) && WorkersHoldLocks(DoStreamRelease(w, c)) && WorkersHoldLocks(DoFlashEnd(w, c))
  {
    hide WorkersHoldLocks, Freed, Visible;
    FreedKeepsWorkers(w, {uid});
    if Found(w, c, uid) {
      var k := w.conns[c];
      ConnChangeKeepsWorkers(ReleasedBy(w, k.holder, uid), c, k.(acquired := k.acquired - {uid}));
    }
    if c in w.conns && w.conns[c].activity.Streaming? {
      var k := w.conns[c];
      FreedKeepsWorkers(w, {k.activity.uid});
      ConnChangeKeepsWorkers(ReleasedBy(w, k.holder, k.activity.uid), c, k.(activity := StreamReleased(k.activity.uid), lost := false));
    }
    if c in w.conns && w.conns[c].activity.Flashing? {
      var k := w.conns[c];
      FreedKeepsWorkers(w, {k.activity.uid});
      ConnChangeKeepsWorkers(ReleasedBy(w, k.holder, k.activity.uid), c,
                             k.(acquired := k.acquired - {k.activity.uid}, activity := Ready, lost := false));
    }
  }

  lemma ChecksKeepWorkers(w: World, c: ConnId, uid: Uid)
    requires WorkersHoldLocks(w)
    ensures WorkersHoldLocks(DoStreamCheck(w, c, uid)) && WorkersHoldLocks(DoFlashCheck(w, c, uid))
  {
    hide WorkersHoldLocks, IsVirtual, IsDetached, Visible;
    if DoStreamCheck(w, c, uid) != w {
      ConnChangeKeepsWorkers(w, c, DoStreamCheck(w, c, uid).conns[c]);
    }
    if DoFlashCheck(w, c, uid) != w {
      ConnChangeKeepsWorkers(w, c, DoFlashCheck(w, c, uid).conns[c]);
    }
  }

  lemma DialAndDiscardKeepWorkers(w: World, c: ConnId, accepted: bool)
    requires WorkersHoldLocks(w)
    ensures WorkersHoldLocks(DoDialResult(w, c, accepted)) && WorkersHoldLocks(DoStreamDiscard(w, c))
  {
    hide WorkersHoldLocks;
    if c in w.conns {
      if w.conns[c].activity.Dialing? {
        WorkerFitsInState(w, c);
        ConnChangeKeepsWorkers(w, c, DoDialResult(w, c, accepted).conns[c]);
      }
      if w.conns[c].activity.StreamReleased? {
        ConnChangeKeepsWorkers(w, c, DoStreamDiscard(w, c).conns[c]);
      }
    }
  }

  lemma ConnectAndRegisterKeepWorkers(w: World, c: ConnId, h: L.HolderRef, name: string, role: string, serial: string)
    requires WorkersHoldLocks(w)
    ensures WorkersHoldLocks(DoConnect(w, c, h)) && WorkersHoldLocks(DoRegister(w, c, name, role, serial))
  {
    hide WorkersHoldLocks, MatchesBoardNameRe, IsReservedName, VirtualRow, KeyOf, UidOf;
    if DoConnect(w, c, h) != w {
      ConnChangeKeepsWorkers(w, c, Conn(h, {}, Ready, false));
      WorkersDependOnLocksAndConns(WithConn(w, c, Conn(h, {}, Ready, false)), DoConnect(w, c, h));
    }
    if DoRegister(w, c, name, role, serial) != w {
      var k := w.conns[c].(activity := HoldingBoard);
      ConnChangeKeepsWorkers(w, c, k);
      WorkersDependOnLocksAndConns(WithConn(w, c, k), DoRegister(w, c, name, role, serial));
    }
  }

  lemma WorkerFitsInState(w: World, c: ConnId)
    requires WorkersHoldLocks(w) && c in w.conns
    ensures WorkerFits(w, w.conns[c])
  {
    var k := w.conns[c];
    if k.activity.Dialing? || k.activity.Streaming? || k.activity.Flashing? {
      assert ActiveOn(k, k.activity.uid);
    }
  }

  lemma RevokingStepsKeepWorkers(w: World, uid: Uid, key: string, dead: set<int>)
    requires WorkersHoldLocks(w)
    ensures WorkersHoldLocks(DoForceUnlock(w, uid)) && WorkersHoldLocks(DoDetachBoard(w, key)) && WorkersHoldLocks(DoScanDetach(w, uid))
    ensures WorkersHoldLocks(Freed(w, LocalDead(w, dead))) && WorkersHoldLocks(Freed(w, RemoteDead(w)))
  {
    hide WorkersHoldLocks, Freed, IsVirtual, VirtualRemoved, LocalDead, RemoteDead, ScannedBefore;
    FreedKeepsWorkers(w, {uid});
    FreedKeepsWorkers(w, LocalDead(w, dead));
    FreedKeepsWorkers(w, RemoteDead(w));
    WorkersDependOnLocksAndConns(if ScannedBefore(w, uid) then Freed(w, {uid}) else w, DoScanDetach(w, uid));
    if key in w.boards {
      FreedKeepsWorkers(w, {UidOf(w.boards[key])});
      WorkersDependOnLocksAndConns(Freed(w, {UidOf(w.boards[key])}), DoDetachBoard(w, key));
    }
  }

  lemma StepKeepsWorkers(w: World, a: Action)
    requires WorkersHoldLocks(w)
    ensures WorkersHoldLocks(Step(w, a))
  {
    hide WorkersHoldLocks, Freed, DoConnect, DoLock, DoUnlock, DoStreamCheck, DoDialResult, DoStreamRelease, DoStreamDiscard, DoFlashCheck,
      DoFlashEnd, DoClose, DoSessionGone, DoForceUnlock, DoRegister, DoDetachBoard, DoRescan, DoScanAttach, DoScanDetach, LocalDead,
      RemoteDead, Blanked, Probed, AfterStep, IsVirtualUid;
    match a {
      case Lock(c, uid, kind, lockLabel, now) => LockAndCloseKeepWorkers(w, c, uid, kind, lockLabel, now);
      case Close(c) => LockAndCloseKeepWorkers(w, c, "", L.Serial, None, 0);
      case Unlock(c, uid) => EndingStepsKeepWorkers(w, c, uid);
      case StreamRelease(c) => EndingStepsKeepWorkers(w, c, "");
      case FlashEnd(c) => EndingStepsKeepWorkers(w, c, "");
      case Connect(c, h) => ConnectAndRegisterKeepWorkers(w, c, h, "", "", "");
      case StreamCheck(c, uid) => ChecksKeepWorkers(w, c, uid);
      case DialResult(c, accepted) => DialAndDiscardKeepWorkers(w, c, accepted);
      case StreamDiscard(c) => DialAndDiscardKeepWorkers(w, c, false);
      case FlashCheck(c, uid) => ChecksKeepWorkers(w, c, uid);
      case Register(c, name, role, serial) => ConnectAndRegisterKeepWorkers(w, c, L.Local(0), name, role, serial);
      case SweepLocal(dead) => RevokingStepsKeepWorkers(w, "", "", dead);
      case SweepRemote => RevokingStepsKeepWorkers(w, "", "", {});
      case ForceUnlock(uid) => RevokingStepsKeepWorkers(w, uid, "", {});
      case DetachBoard(key) => RevokingStepsKeepWorkers(w, "", key, {});
      case ScanDetach(uid) => RevokingStepsKeepWorkers(w, uid, "", {});
      case _ =>
        StoreStepsKeepLocksAndConns(w, a);
        WorkersDependOnLocksAndConns(w, Step(w, a));
    }
  }

  // ----- locked boards have a row, and a local one is attached -----

  /** The lock table shrank, or grew by one present board; locked rows stayed present and attached. */
  lemma ShrinkingLocksKeepsRows(w: World, w': World)
    requires LockedRowsArePresent(w)
    requires forall u :: u in w'.locks ==> u in w.locks && u in w'.devices && (w'.devices[u] == w.devices[u] || !IsDetached(w'.devices[u]))
    ensures LockedRowsArePresent(w')
  {
  }

  lemma PeerStepKeepsRows(w: World, s: PeerStep)
    requires LockedRowsArePresent(w)
    ensures LockedRowsArePresent(w.(devices := AfterStep(w.devices, s)))
  {
    hide AfterEvent, AfterSnapshot;
    if s.Live? {
      EventRespectsOwnership(w.devices, s.host, s.event);
    } else {
      SnapshotRespectsOwnership(w.devices, s.host, s.entries);
    }
  }

  lemma LockKeepsRows(w: World, c: ConnId, uid: Uid, kind: L.Kind, lockLabel: Option<string>, now: int)
    requires LockedRowsArePresent(w)
    ensures LockedRowsArePresent(DoLock(w, c, uid, kind, lockLabel, now))
  {
    hide Visible;
  }

  ghost predicate RowsStay(d: Devices, d': Devices) {
    forall u :: u in d ==> u in d' && (d'[u] == d[u] || !IsDetached(d'[u]))
  }

  lemma ScansAndProbesKeepRows(d: Devices, uid: Uid, port: string, vidPid: string, result: Option<Announcement>)
    ensures RowsStay(d, Upserted(d, uid, None, Some(port), Some(vidPid)))
    ensures RowsStay(d, Probed(d, uid, result)) && RowsStay(d, Blanked(d, uid))
  {
  }

  lemma RescanKeepsRows(w: World)
    requires LockedRowsArePresent(w)
    ensures LockedRowsArePresent(DoRescan(w))
  {
    hide IsCandidate;
  }

  lemma StayingRowsKeepLocked(w: World, w': World)
    requires LockedRowsArePresent(w) && w'.locks == w.locks && RowsStay(w.devices, w'.devices)
    ensures LockedRowsArePresent(w')
  {
  }

  lemma StoreStepsKeepRows(w: World, a: Action)
    requires LockedRowsArePresent(w) && OnlyStoreChanges(a)
    ensures LockedRowsArePresent(Step(w, a))
  {
    hide LockedRowsArePresent, IsVirtualUid, ScannedBefore, AfterStep, Upserted, Probed, Blanked, RowsStay, Freed, DoRescan, SessionOpen;
    StoreStepsKeepLocksAndConns(w, a);
    if a.Peer? {
      PeerStepKeepsRows(w, a.step);
    } else if a.Rescan? {
      RescanKeepsRows(w);
    } else {
      if a.ScanAttach? {
        ScansAndProbesKeepRows(w.devices, a.uid, a.port, a.vidPid, None);
      } else if a.ProbeDone? || a.GiveUpReprobe? {
        ScansAndProbesKeepRows(w.devices, a.uid, "", "", if a.ProbeDone? then a.result else None);
      }
      SameRowsStay(w.devices);
      StayingRowsKeepLocked(w, Step(w, a));
    }
  }

  lemma SameRowsStay(d: Devices)
    ensures RowsStay(d, d)
  {
  }

  lemma BoardAndScanStepsKeepRows(w: World, a: Action)
    requires LockedRowsArePresent(w) && (a.Register? || a.DetachBoard? || a.ScanDetach?)
    ensures LockedRowsArePresent(Step(w, a))
  {
    hide Bereft, IsVirtual, KeyOf, UidOf, MatchesBoardNameRe, IsReservedName, LocallyAttached;
    ShrinkingLocksKeepsRows(w, Step(w, a));
  }

  /** The other steps only take locks away and leave the rows alone. */
  lemma LocksOnlyShrink(w: World, a: Action)
    requires LeavesStoreAlone(a) && !a.Lock?
    ensures Step(w, a).locks.Keys <= w.locks.Keys
  {
    hide Bereft, LocalDead, RemoteDead, Visible, IsVirtual, IsDetached, ReleasedOnClose;
  }

  lemma StepKeepsRows(w: World, a: Action)
    requires LockedRowsArePresent(w)
    ensures LockedRowsArePresent(Step(w, a))
  {
    hide DoLock;
    if a.Lock? {
      LockKeepsRows(w, a.c, a.uid, a.kind, a.lockLabel, a.now);
    } else {
      hide Step;
      if OnlyStoreChanges(a) {
        StoreStepsKeepRows(w, a);
      } else if a.Register? || a.DetachBoard? || a.ScanDetach? {
        BoardAndScanStepsKeepRows(w, a);
      } else {
        OtherStepsLeaveStoreAlone(w, a);
        LocksOnlyShrink(w, a);
        ShrinkingLocksKeepsRows(w, Step(w, a));
      }
    }
  }

  // ----- virtual boards -----

  lemma RegisterKeepsBoards(w: World, c: ConnId, name: string, role: string, serial: string)
    requires BoardsMatchRows(w)
    ensures BoardsMatchRows(DoRegister(w, c, name, role, serial))
  {
    hide MatchesBoardNameRe, IsReservedName, KeyOf;
    var w' := DoRegister(w, c, name, role, serial);
    if w' != w {
      assert UidOf(name)[4..] == name;
      forall k | k in w.boards && k != KeyOf(name) ensures UidOf(w.boards[k]) != UidOf(name) {
        assert UidOf(w.boards[k])[4..] == w.boards[k];
      }
      forall u | u in w'.devices && w'.devices[u].host.None? && IsVirtualUid(u)
        ensures KeyOf(u[4..]) in w'.boards && w'.boards[KeyOf(u[4..])] == u[4..]
      {
        assert u == "sim-" + u[4..];
      }
    }
  }

  lemma DetachKeepsBoards(w: World, key: string)
    requires BoardsMatchRows(w)
    ensures BoardsMatchRows(DoDetachBoard(w, key))
  {
    hide KeyOf, Freed;
    if key in w.boards {
      var w', name := DoDetachBoard(w, key), w.boards[key];
      assert UidOf(name)[4..] == name;
      forall k | k in w'.boards ensures UidOf(w.boards[k]) != UidOf(name) {
        assert UidOf(w.boards[k])[4..] == w.boards[k];
      }
      forall u | u in w'.devices && w'.devices[u].host.None? && IsVirtualUid(u)
        ensures KeyOf(u[4..]) in w'.boards && w'.boards[KeyOf(u[4..])] == u[4..]
      {
        assert u == "sim-" + u[4..];
      }
    }
  }

  /** A store change that leaves local sim- rows exactly as they are keeps boards and rows in step. */
  lemma SameBoardRowsKeepBoards(w: World, w': World)
    requires BoardsMatchRows(w) && w'.boards == w.boards
    requires forall u :: u in w'.devices && w'.devices[u].host.None? && IsVirtualUid(u) ==> u in w.devices && w.devices[u].host.None?
    requires forall u :: u in w.devices && IsVirtual(w.devices[u]) && IsVirtualUid(u) && w.devices[u].state == Connected ==>
               u in w'.devices && w'.devices[u] == w.devices[u]
    ensures BoardsMatchRows(w')
  {
    hide KeyOf, IsVirtual;
    forall k | k in w'.boards
      ensures var u := UidOf(w'.boards[k]);
              KeyOf(w'.boards[k]) == k && u in w'.devices && IsVirtual(w'.devices[u]) && w'.devices[u].state == Connected
    {
      assert IsVirtualUid(UidOf(w.boards[k]));
    }
  }

  lemma PeerStepKeepsBoards(w: World, s: PeerStep)
    requires BoardsMatchRows(w)
    ensures BoardsMatchRows(w.(devices := AfterStep(w.devices, s)))
  {
    hide AfterEvent, AfterSnapshot, KeyOf;
    if s.Live? {
      EventRespectsOwnership(w.devices, s.host, s.event);
    } else {
      SnapshotRespectsOwnership(w.devices, s.host, s.entries);
    }
    forall u | u in w.devices && IsVirtual(w.devices[u]) && w.devices[u].state == Connected
      ensures AfterStep(w.devices, s)[u] == w.devices[u]
    {
      assert LocallyAttached(w.devices, u);
    }
    SameBoardRowsKeepBoards(w, w.(devices := AfterStep(w.devices, s)));
  }

  /** Steps that read the store but do not change it. */
  predicate LeavesStoreAlone(a: Action) {
    !(OnlyStoreChanges(a) || a.Register? || a.DetachBoard? || a.ScanDetach?)
  }

  lemma OtherStepsLeaveStoreAlone(w: World, a: Action)
    requires LeavesStoreAlone(a)
    ensures var w' := Step(w, a);
            w'.devices == w.devices && w'.boards == w.boards && w'.claims == w.claims && w'.granted == w.granted && w'.returned == w.returned
  {
    hide Bereft, LocalDead, RemoteDead, Visible, IsVirtual, IsDetached, HoldsLock, Found, ReleasedOnClose, SessionOpen, DoSessionGone, DoRegister,
      DoDetachBoard, DoRescan, DoScanAttach, DoScanDetach, Blanked, Probed, AfterStep;
  }

  /** Changing, inserting or keeping one row that is no sim- row keeps boards and rows in step. */
  lemma OtherRowKeepsBoards(w: World, w': World, uid: Uid)
    requires BoardsMatchRows(w) && !IsVirtualUid(uid)
    requires w'.boards == w.boards && w'.devices.Keys <= w.devices.Keys + {uid}
    requires forall u :: u in w.devices && u != uid ==> u in w'.devices && w'.devices[u] == w.devices[u]
    ensures BoardsMatchRows(w')
  {
    hide BoardsMatchRows, IsVirtual, IsVirtualUid;
    SameBoardRowsKeepBoards(w, w');
  }

  lemma LocalSimRowsAreVirtual(w: World, uid: Uid)
    requires BoardsMatchRows(w) && uid in w.devices && w.devices[uid].host.None? && IsVirtualUid(uid)
    ensures IsVirtual(w.devices[uid])
  {
    hide KeyOf, IsVirtual;
    assert uid == "sim-" + uid[4..];
    assert UidOf(w.boards[KeyOf(uid[4..])]) == uid;
  }

  lemma ScannedUidIsNoBoard(w: World, uid: Uid)
    requires BoardsMatchRows(w) && ScannedBefore(w, uid)
    ensures !IsVirtualUid(uid)
  {
    hide BoardsMatchRows, IsVirtual;
    if IsVirtualUid(uid) {
      LocalSimRowsAreVirtual(w, uid);
    }
  }

  lemma RescanKeepsBoards(w: World)
    requires BoardsMatchRows(w)
    ensures BoardsMatchRows(DoRescan(w))
  {
    hide BoardsMatchRows, IsVirtualUid;
    SameBoardRowsKeepBoards(w, DoRescan(w));
  }

  /** The daemon's and the operator's changes to the store. */
  lemma DaemonStepsKeepBoards(w: World, a: Action)
    requires BoardsMatchRows(w)
    requires a.Rescan? || a.ScanAttach? || a.ScanDetach? || a.GiveUpReprobe? || a.ProbeDone?
    ensures BoardsMatchRows(Step(w, a))
  {
    hide BoardsMatchRows, Bereft, IsVirtualUid, IsVirtual, DoRescan, ScannedBefore, LocallyAttached;
    var w' := Step(w, a);
    match a {
      case Rescan => RescanKeepsBoards(w);
      case ScanAttach(uid, _, _, _) =>
        if w' != w {
          OtherRowKeepsBoards(w, w', uid);
        }
      case GiveUpReprobe(uid) =>
        if w' != w {
          OtherRowKeepsBoards(w, w', uid);
        }
      case ProbeDone(uid, _) =>
        if w' != w {
          OtherRowKeepsBoards(w, w', uid);
        }
      case ScanDetach(uid) =>
        if w' != w {
          ScannedUidIsNoBoard(w, uid);
          OtherRowKeepsBoards(w, w', uid);
        }
    }
  }

  lemma BoardsDependOnRowsAndBoards(w: World, w': World)
    requires w'.devices == w.devices && w'.boards == w.boards
    ensures BoardsMatchRows(w) <==> BoardsMatchRows(w')
  {
  }

  lemma StepKeepsBoards(w: World, a: Action)
    requires BoardsMatchRows(w)
    ensures BoardsMatchRows(Step(w, a))
  {
    hide BoardsMatchRows, DoRegister, DoDetachBoard, AfterStep, Freed, DoRescan, DoScanAttach, DoScanDetach, Blanked, Probed;
    match a {
      case Register(c, name, role, serial) => RegisterKeepsBoards(w, c, name, role, serial);
      case DetachBoard(key) => DetachKeepsBoards(w, key);
      case Peer(s) => PeerStepKeepsBoards(w, s);
      case SessionGone(_) => BoardsDependOnRowsAndBoards(w, Step(w, a));
      case PeerReachable(_, _) => BoardsDependOnRowsAndBoards(w, Step(w, a));
      case _ =>
        if LeavesStoreAlone(a) {
          OtherStepsLeaveStoreAlone(w, a);
          BoardsDependOnRowsAndBoards(w, Step(w, a));
        } else {
          DaemonStepsKeepBoards(w, a);
        }
    }
  }

  // ----- claims -----

  lemma PeerStepKeepsClaims(w: World, s: PeerStep)
    requires ClaimsAreAttached(w)
    ensures ClaimsAreAttached(w.(devices := AfterStep(w.devices, s)))
  {
    hide AfterEvent, AfterSnapshot, IsVirtual, IsVirtualUid;
    if s.Live? {
      EventRespectsOwnership(w.devices, s.host, s.event);
    } else {
      SnapshotRespectsOwnership(w.devices, s.host, s.entries);
    }
  }

  lemma DaemonStepsKeepClaims(w: World, a: Action)
    requires ClaimsAreAttached(w) && (a.ScanAttach? || a.ScanDetach? || a.GiveUpReprobe? || a.ProbeDone? || a.Rescan?)
    ensures ClaimsAreAttached(Step(w, a))
  {
    hide Bereft, IsVirtualUid;
  }

  lemma BoardStepsKeepClaims(w: World, a: Action)
    requires ClaimsAreAttached(w) && (a.Register? || a.DetachBoard?)
    ensures ClaimsAreAttached(Step(w, a))
  {
    hide Bereft, KeyOf, IsReservedName, MatchesBoardNameRe;
  }

  lemma ClaimsDependOnRowsAndClaims(w: World, w': World)
    requires w'.devices == w.devices && w'.claims == w.claims
    ensures ClaimsAreAttached(w) <==> ClaimsAreAttached(w')
  {
  }

  lemma StepKeepsClaims(w: World, a: Action)
    requires ClaimsAreAttached(w)
    ensures ClaimsAreAttached(Step(w, a))
  {
    hide ClaimsAreAttached, AfterStep;
    if a.Peer? {
      PeerStepKeepsClaims(w, a.step);
    } else {
      hide Step;
      if a.ScanAttach? || a.ScanDetach? || a.GiveUpReprobe? || a.ProbeDone? || a.Rescan? {
        DaemonStepsKeepClaims(w, a);
      } else if a.Register? || a.DetachBoard? {
        BoardStepsKeepClaims(w, a);
      } else {
        if a.SessionGone? || a.PeerReachable? {
          QuietStepsLeaveClaims(w, a);
        } else {
          OtherStepsLeaveStoreAlone(w, a);
        }
        ClaimsDependOnRowsAndClaims(w, Step(w, a));
      }
    }
  }

  lemma QuietStepsLeaveClaims(w: World, a: Action)
    requires a.SessionGone? || a.PeerReachable?
    ensures Step(w, a).devices == w.devices && Step(w, a).claims == w.claims
  {
  }

  /** A granted handle never overwrites another: the uid it is filed under had none. */
  lemma GrantsNeverOverwrite(w: World, uid: Uid, port: string, vidPid: string, grant: bool)
    requires ClaimsAreAttached(w)
    ensures DoScanAttach(w, uid, port, vidPid, grant).granted != w.granted ==> uid !in w.claims
  {
  }

  lemma GrantKeepsHandles(w: World, uid: Uid, port: string, vidPid: string, grant: bool)
    requires ClaimsAreAttached(w) && HandlesAreConserved(w)
    ensures HandlesAreConserved(DoScanAttach(w, uid, port, vidPid, grant))
  {
    var w' := DoScanAttach(w, uid, port, vidPid, grant);
    GrantsNeverOverwrite(w, uid, port, vidPid, grant);
    hide Upserted, IsVirtual, IsVirtualUid, ScannedBefore;
    if w' != w {
      assert w'.claims[uid] == w.granted;
      forall h | 0 <= h < w'.granted ensures h in w'.claims.Values || h in w'.returned {
        if h < w.granted && h in w.claims.Values {
          var u :| u in w.claims && w.claims[u] == h;
          assert w'.claims[u] == h;
        }
      }
    }
  }

  lemma DetachKeepsHandles(w: World, uid: Uid)
    requires HandlesAreConserved(w)
    ensures HandlesAreConserved(DoScanDetach(w, uid))
  {
    hide Bereft, ScannedBefore, Detached;
    var w' := DoScanDetach(w, uid);
    if ScannedBefore(w, uid) {
      forall h | 0 <= h < w'.granted ensures h in w'.claims.Values || h in w'.returned {
        if h in w.claims.Values {
          var u :| u in w.claims && w.claims[u] == h;
          if u == uid {
            assert w'.returned[|w.returned|] == h;
          } else {
            assert w'.claims[u] == h;
          }
        } else {
          assert h in w.returned;
        }
      }
    }
  }

  lemma HandlesDependOnLedger(w: World, w': World)
    requires w'.claims == w.claims && w'.granted == w.granted && w'.returned == w.returned
    ensures HandlesAreConserved(w) <==> HandlesAreConserved(w')
  {
  }

  lemma StoreStepsKeepLedger(w: World, a: Action)
    requires OnlyStoreChanges(a) && !a.ScanAttach?
    ensures Step(w, a).claims == w.claims && Step(w, a).granted == w.granted && Step(w, a).returned == w.returned
  {
    hide AfterStep, Blanked, Probed, Purged, RescanUids;
  }

  lemma BoardStepsKeepLedger(w: World, a: Action)
    requires a.Register? || a.DetachBoard?
    ensures Step(w, a).claims == w.claims && Step(w, a).granted == w.granted && Step(w, a).returned == w.returned
  {
    hide Bereft, MatchesBoardNameRe, IsReservedName, VirtualRow, VirtualRemoved;
  }

  lemma StepKeepsHandles(w: World, a: Action)
    requires ClaimsAreAttached(w) && HandlesAreConserved(w)
    ensures HandlesAreConserved(Step(w, a))
  {
    hide DoScanAttach, DoScanDetach, HandlesAreConserved, ClaimsAreAttached;
    if a.ScanAttach? {
      GrantKeepsHandles(w, a.uid, a.port, a.vidPid, a.grant);
    } else if a.ScanDetach? {
      DetachKeepsHandles(w, a.uid);
    } else {
      hide Step;
      if LeavesStoreAlone(a) {
        OtherStepsLeaveStoreAlone(w, a);
      } else if OnlyStoreChanges(a) {
        StoreStepsKeepLedger(w, a);
      } else {
        BoardStepsKeepLedger(w, a);
      }
      HandlesDependOnLedger(w, Step(w, a));
    }
  }

  // ----- every reachable state -----

  lemma InitialIsSafe(w: World)
    requires Initial(w)
    ensures Inv(w)
  {
  }

  lemma StepKeepsInvariant(w: World, a: Action)
    requires Inv(w)
    ensures Inv(Step(w, a))
  {
    hide Step, LocksAreOwned, SessionsAreLive, WorkersHoldLocks, LockedRowsArePresent, BoardsMatchRows, ClaimsAreAttached, HandlesAreConserved;
    StepKeepsOwners(w, a);
    StepKeepsSessions(w, a);
    StepKeepsWorkers(w, a);
    StepKeepsRows(w, a);
    StepKeepsBoards(w, a);
    StepKeepsClaims(w, a);
    StepKeepsHandles(w, a);
  }

  /** The whole invariant holds after every run, of any length, from any stored database. */
  lemma {:induction false} ReachableStatesAreSafe(w: World, actions: seq<Action>)
    requires Initial(w)
    ensures Inv(Run(w, actions))
  {
    if actions == [] {
      InitialIsSafe(w);
    } else {
      ReachableStatesAreSafe(w, actions[..|actions| - 1]);
      StepKeepsInvariant(Run(w, actions[..|actions| - 1]), actions[|actions| - 1]);
    }
  }

  // ----- what follows for the users of the registry -----

  /** Whoever has uid locked is one connection: no other shares the lock's holder. Other holders may open as many as they like. */
  ghost predicate OwnedByOne(w: World, uid: Uid) {
    uid in w.locks ==>
      forall c, d :: c in w.conns && d in w.conns && w.conns[c].holder == w.locks[uid].holder && w.conns[d].holder == w.locks[uid].holder ==>
        c == d
  }

  ghost predicate AtWork(w: World, c: ConnId, uid: Uid) {
    c in w.conns && (w.conns[c].activity == Dialing(uid) || w.conns[c].activity == Streaming(uid) || w.conns[c].activity == Flashing(uid))
  }

  /** The step takes uid's lock away from whoever holds it: the operator, a vanished process, or a board that is gone. */
  predicate Revokes(w: World, a: Action, uid: Uid) {
    uid in w.locks &&
    match a
    case ForceUnlock(u) => u == uid
    case SweepLocal(dead) => w.locks[uid].holder.Local? && w.locks[uid].holder.pid in dead
    case DetachBoard(key) => key in w.boards && UidOf(w.boards[key]) == uid
    case ScanDetach(u) => u == uid
    case _ => false
  }

  /** Two connections still entitled to the same board are sessions of one holder. */
  lemma WorkersShareAHolder(w: World, actions: seq<Action>, c: ConnId, d: ConnId, uid: Uid)
    requires Initial(w)
    requires AtWork(Run(w, actions), c, uid) && !Run(w, actions).conns[c].lost
    requires AtWork(Run(w, actions), d, uid) && !Run(w, actions).conns[d].lost
    ensures Run(w, actions).conns[c].holder == Run(w, actions).conns[d].holder
    ensures uid in Run(w, actions).locks && uid in Run(w, actions).devices && !IsDetached(Run(w, actions).devices[uid])
    ensures Run(w, actions).locks[uid].holder == Run(w, actions).conns[c].holder
  {
    hide Run, LocksAreOwned, SessionsAreLive, BoardsMatchRows, ClaimsAreAttached, HandlesAreConserved;
    ReachableStatesAreSafe(w, actions);
    var s := Run(w, actions);
    assert s.locks[uid].holder == s.conns[c].holder && s.locks[uid].holder == s.conns[d].holder;
  }

  /** The remote liveness sweep never finds anything to release. */
  lemma RemoteSweepReleasesNothing(w: World, actions: seq<Action>)
    requires Initial(w)
    ensures Step(Run(w, actions), SweepRemote) == Run(w, actions)
  {
    hide Run, WorkersHoldLocks, LockedRowsArePresent, BoardsMatchRows, ClaimsAreAttached, HandlesAreConserved;
    ReachableStatesAreSafe(w, actions);
    var s := Run(w, actions);
    NoRemoteLockIsDead(s);
    assert Freed(s, {}).conns == s.conns && Freed(s, {}).locks == s.locks;
  }

  /** Once the last connection of a holder is closed, that holder has no lock left. */
  lemma ClosingTheLastConnectionFreesEverything(w: World, actions: seq<Action>, c: ConnId, uid: Uid)
    requires Initial(w) && c in Run(w, actions).conns
    requires forall d :: d in Run(w, actions).conns && d != c ==> Run(w, actions).conns[d].holder != Run(w, actions).conns[c].holder
    ensures var w' := Step(Run(w, actions), Close(c));
            uid in w'.locks ==> w'.locks[uid].holder != Run(w, actions).conns[c].holder
  {
    hide Run, WorkersHoldLocks, SessionsAreLive, LockedRowsArePresent, BoardsMatchRows, ClaimsAreAttached, HandlesAreConserved;
    ReachableStatesAreSafe(w, actions);
    var s := Run(w, actions);
    if uid in s.locks && s.locks[uid].holder == s.conns[c].holder {
      var d :| d in s.conns && Owns(s.conns[d], uid, s.locks[uid].holder);
    }
  }

  /** A locked sim- uid is either a live registration or a row mirrored from a peer. */
  lemma LockedBoardsAreRegistered(w: World, actions: seq<Action>, uid: Uid)
    requires Initial(w) && uid in Run(w, actions).locks && IsVirtualUid(uid)
    ensures var s := Run(w, actions);
            uid in s.devices
            && (s.devices[uid].host.None? ==> KeyOf(uid[4..]) in s.boards && UidOf(s.boards[KeyOf(uid[4..])]) == uid && IsVirtual(s.devices[uid]))
  {
    hide Run, WorkersHoldLocks, LocksAreOwned, SessionsAreLive, ClaimsAreAttached, HandlesAreConserved, KeyOf, IsVirtual;
    ReachableStatesAreSafe(w, actions);
    assert uid == "sim-" + uid[4..];
  }

  // ----- exclusive use, along a whole run -----

  /** Who is left without a lock when some uids are freed. */
  lemma FreedDispossesses(w: World, uids: set<Uid>, c: ConnId, uid: Uid)
    requires AtWork(Freed(w, uids), c, uid)
    ensures AtWork(w, c, uid) && (Freed(w, uids).conns[c].lost <==> w.conns[c].lost || (uid in uids && uid in w.locks))
  {
    assert c in w.conns;
    assert ActiveOn(w.conns[c], uid);
  }

  /** A connection giving up its own lock dispossesses nobody else, if the board's lock has one owner. */
  lemma OwnReleaseHurtsNobody(w: World, d: ConnId, uids: set<Uid>, c: ConnId, uid: Uid)
    requires WorkersHoldLocks(w) && OwnedByOne(w, uid) && d in w.conns && c != d
    requires forall u :: u in uids && u in w.locks ==> w.locks[u].holder == w.conns[d].holder
    requires AtWork(Freed(w, uids), c, uid) && Freed(w, uids).conns[c].lost
    ensures AtWork(w, c, uid) && w.conns[c].lost
  {
    hide Freed;
    FreedDispossesses(w, uids, c, uid);
  }

  lemma LostByEndingSteps(w: World, a: Action, c: ConnId, uid: Uid)
    requires WorkersHoldLocks(w) && OwnedByOne(w, uid)
    requires a.Unlock? || a.StreamRelease? || a.FlashEnd? || a.Close?
    requires AtWork(Step(w, a), c, uid) && Step(w, a).conns[c].lost
    ensures AtWork(w, c, uid) && w.conns[c].lost
  {
    hide Freed, WorkersHoldLocks, OwnedByOne, Visible, Bereft;
    if Step(w, a) != w {
      var uids := if a.Unlock? then {a.uid} else if a.Close? then ReleasedOnClose(w, a.c) else {w.conns[a.c].activity.uid};
      FreedKeepsConns(w, uids);
      if a.Close? || (uids <= w.locks.Keys && forall u :: u in uids ==> w.locks[u].holder == w.conns[a.c].holder) {
        OwnReleaseHurtsNobody(w, a.c, uids, c, uid);
      }
    }
  }

  lemma FreedKeepsConns(w: World, uids: set<Uid>)
    ensures Freed(w, uids).conns.Keys == w.conns.Keys
    ensures forall c :: c in w.conns ==> Freed(w, uids).conns[c] == w.conns[c].(lost := Freed(w, uids).conns[c].lost)
  {
  }

  lemma LostByRevokingSteps(w: World, a: Action, c: ConnId, uid: Uid)
    requires a.SweepLocal? || a.ForceUnlock? || a.DetachBoard? || a.ScanDetach?
    requires AtWork(Step(w, a), c, uid) && Step(w, a).conns[c].lost
    ensures (AtWork(w, c, uid) && w.conns[c].lost) || Revokes(w, a, uid)
  {
    hide Freed, Bereft, IsVirtual, LocallyAttached, VirtualRemoved;
    match a {
      case SweepLocal(dead) => FreedDispossesses(w, LocalDead(w, dead), c, uid);
      case ForceUnlock(u) =>
        if u in w.devices {
          FreedDispossesses(w, {u}, c, uid);
        }
      case DetachBoard(key) =>
        if key in w.boards {
          FreedDispossesses(w, {UidOf(w.boards[key])}, c, uid);
        }
      case ScanDetach(u) =>
        if ScannedBefore(w, u) {
          FreedDispossesses(w, {u}, c, uid);
        }
    }
  }

  lemma LostByPrivateSteps(w: World, a: Action, c: ConnId, uid: Uid)
    requires a.Connect? || a.Lock? || a.StreamCheck? || a.DialResult? || a.StreamDiscard? || a.FlashCheck? || a.Register?
    requires AtWork(Step(w, a), c, uid) && Step(w, a).conns[c].lost
    ensures AtWork(w, c, uid) && w.conns[c].lost
  {
    hide Visible, IsVirtual, IsDetached, MatchesBoardNameRe, IsReservedName, KeyOf;
  }

  /** Working on a board without its lock comes only from a revocation, as long as the board's lock has one owner. */
  lemma LostOnlyByRevocation(w: World, a: Action, c: ConnId, uid: Uid)
    requires Inv(w) && OwnedByOne(w, uid)
    requires AtWork(Step(w, a), c, uid) && Step(w, a).conns[c].lost
    ensures (AtWork(w, c, uid) && w.conns[c].lost) || Revokes(w, a, uid)
  {
    hide LocksAreOwned, SessionsAreLive, WorkersHoldLocks, LockedRowsArePresent, BoardsMatchRows, ClaimsAreAttached, HandlesAreConserved,
      Step, OwnedByOne;
    if a.Unlock? || a.StreamRelease? || a.FlashEnd? || a.Close? {
      LostByEndingSteps(w, a, c, uid);
    } else if a.SweepRemote? {
      SweepRemoteStep(w);
      FreedDispossesses(w, {}, c, uid);
    } else if a.SweepLocal? || a.ForceUnlock? || a.DetachBoard? || a.ScanDetach? {
      LostByRevokingSteps(w, a, c, uid);
    } else if OnlyStoreChanges(a) {
      StoreStepsKeepLocksAndConns(w, a);
    } else {
      LostByPrivateSteps(w, a, c, uid);
    }
  }

  lemma SweepRemoteStep(w: World)
    requires LocksAreOwned(w) && SessionsAreLive(w)
    ensures Step(w, SweepRemote) == Freed(w, {})
  {
    NoRemoteLockIsDead(w);
  }

  lemma NoRemoteLockIsDead(w: World)
    requires LocksAreOwned(w) && SessionsAreLive(w)
    ensures RemoteDead(w) == {}
  {
    forall u | u in w.locks && w.locks[u].holder.Remote? ensures w.locks[u].holder.session in w.live {
      var c :| c in w.conns && Owns(w.conns[c], u, w.locks[u].holder);
    }
  }

  /** Along a run in which uid's lock has one owner at a time and is never revoked, whoever works on uid has its lock. */
  lemma {:induction false} WorkersAreNeverDispossessed(w: World, actions: seq<Action>, uid: Uid)
    requires Initial(w)
    requires forall i :: 0 <= i < |actions| ==> OwnedByOne(Run(w, actions[..i]), uid) && !Revokes(Run(w, actions[..i]), actions[i], uid)
    ensures forall c :: AtWork(Run(w, actions), c, uid) ==> !Run(w, actions).conns[c].lost
  {
    if actions != [] {
      var init, a := actions[..|actions| - 1], actions[|actions| - 1];
      forall i | 0 <= i < |init| ensures OwnedByOne(Run(w, init[..i]), uid) && !Revokes(Run(w, init[..i]), init[i], uid) {
        assert init[..i] == actions[..i] && init[i] == actions[i];
      }
      WorkersAreNeverDispossessed(w, init, uid);
      ReachableStatesAreSafe(w, init);
      hide Step, Inv, OwnedByOne, Revokes;
      forall c | AtWork(Run(w, actions), c, uid) ensures !Run(w, actions).conns[c].lost {
        if Run(w, actions).conns[c].lost {
          LostOnlyByRevocation(Run(w, init), a, c, uid);
        }
      }
    }
  }

  /** Mutual exclusion although streams and flashes run outside the shared lock: in every such run no two connections
      are ever inside a stream or a flash of the same board. */
  lemma NeverTwoOnOneBoard(w: World, actions: seq<Action>, uid: Uid, c: ConnId, d: ConnId)
    requires Initial(w)
    requires forall i :: 0 <= i < |actions| ==> OwnedByOne(Run(w, actions[..i]), uid) && !Revokes(Run(w, actions[..i]), actions[i], uid)
    requires OwnedByOne(Run(w, actions), uid)
    requires AtWork(Run(w, actions), c, uid) && AtWork(Run(w, actions), d, uid)
    ensures c == d
  {
    hide Run, Revokes;
    WorkersAreNeverDispossessed(w, actions, uid);
    WorkersShareAHolder(w, actions, c, d, uid);
  }

  /** While c works on uid under its lock, exactly these steps put d to work on it too: the check that matches what c is doing,
      by a connection of the same holder that is ready and may use the board. */
  lemma SecondWorkerIff(w: World, a: Action, c: ConnId, d: ConnId, uid: Uid)
    requires Inv(w) && AtWork(w, c, uid) && !w.conns[c].lost && !AtWork(w, d, uid)
    ensures AtWork(Step(w, a), d, uid)
            <==> IsReady(w, d) && w.conns[d].holder == w.conns[c].holder && Visible(w.conns[d], w.devices[uid])
                 && (if w.conns[c].activity.Flashing? then a == FlashCheck(d, uid) else a == StreamCheck(d, uid) && HasPort(w.devices[uid]))
  {
    hide LocksAreOwned, SessionsAreLive, BoardsMatchRows, ClaimsAreAttached, HandlesAreConserved, Visible, Step;
    assert KindFits(w.conns[c], w.locks[uid].kind) && w.locks[uid].holder == w.conns[c].holder && !IsDetached(w.devices[uid]);
    if a.StreamCheck? || a.FlashCheck? {
      ChecksPutToWork(w, a, d, uid);
    } else if AtWork(Step(w, a), d, uid) {
      OnlyChecksPutToWork(w, a, d, uid);
    }
  }

  predicate HasPort(r: Row) {
    r.port.Some? && r.port.value != ""
  }

  lemma ChecksPutToWork(w: World, a: Action, d: ConnId, uid: Uid)
    requires (a.StreamCheck? || a.FlashCheck?) && !AtWork(w, d, uid)
    ensures AtWork(Step(w, a), d, uid)
            <==> a.c == d && a.uid == uid && Found(w, d, uid) && HoldsLock(w, d, uid) && !IsDetached(w.devices[uid])
                 && (if a.FlashCheck? then w.locks[uid].kind == L.Flash else StreamKind(w.locks[uid].kind) && HasPort(w.devices[uid]))
  {
    hide Visible, IsVirtual;
  }

  /** No step but a check changes what a connection works on, except by ending it. */
  lemma OnlyChecksPutToWork(w: World, a: Action, d: ConnId, uid: Uid)
    requires !a.StreamCheck? && !a.FlashCheck? && AtWork(Step(w, a), d, uid)
    ensures AtWork(w, d, uid)
  {
    hide Visible, IsVirtual, IsDetached, MatchesBoardNameRe, IsReservedName, KeyOf, Bereft, LocalDead, RemoteDead, LocallyAttached, VirtualRemoved;
    if OnlyStoreChanges(a) {
      StoreStepsKeepLocksAndConns(w, a);
    }
  }

  // ----- runs that show the hypotheses are needed -----

  /** A run is determined state by state. */
  lemma {:induction false} RunIs(w: World, actions: seq<Action>, states: seq<World>)
    requires |states| == |actions| + 1 && states[0] == w
    requires forall i :: 0 <= i < |actions| ==> states[i + 1] == Step(states[i], actions[i])
    ensures Run(w, actions) == states[|actions|]
  {
    hide Step;
    if actions != [] {
      RunIs(w, actions[..|actions| - 1], states[..|actions|]);
    }
  }

  /** A real board, attached on a port. */
  predicate IsAttachedBoard(w: World, uid: Uid) {
    uid in w.devices && w.devices[uid].host.None? && w.devices[uid].state == Connected
    && w.devices[uid].port == Some("/dev/ttyACM0") && w.devices[uid].vidPid == Some("0d28:0204")
  }

  lemma TwoConnect(w: World, p: int, q: int)
    requires Initial(w)
    ensures Step(Step(w, Connect(0, L.Local(p))), Connect(1, L.Local(q)))
            == w.(conns := map[0 := Conn(L.Local(p), {}, Ready, false), 1 := Conn(L.Local(q), {}, Ready, false)])
    ensures w.locks == map[]
  {
  }

  /** Locking and streaming an attached board that is free. */
  lemma LockAndStream(w: World, c: ConnId, uid: Uid)
    requires IsAttachedBoard(w, uid) && uid !in w.locks && IsReady(w, c) && w.conns[c].holder.Local?
    ensures var k := w.conns[c];
            var w1 := Step(w, Lock(c, uid, L.Serial, None, 0));
            Step(w1, StreamCheck(c, uid))
            == w.(locks := w.locks[uid := L.LockStatus(L.Serial, k.holder, None, 0)],
                  conns := w.conns[c := Conn(k.holder, k.acquired + {uid}, Streaming(uid), false)])
  {
    var w1 := Step(w, Lock(c, uid, L.Serial, None, 0));
    assert w1 == DoLock(w, c, uid, L.Serial, None, 0);
    assert w1.conns[c] == w.conns[c].(acquired := w.conns[c].acquired + {uid}) && w1.devices == w.devices;
    assert !IsVirtual(w1.devices[uid]);
  }

  /** Without a single owner it fails: two connections of one process can stream one board at the same time. */
  lemma OneProcessCanStreamTwice(w: World, uid: Uid, pid: int)
    requires Initial(w) && IsAttachedBoard(w, uid)
    ensures var h := L.Local(pid);
            var s := Run(w, [Connect(0, h), Connect(1, h), Lock(0, uid, L.Serial, None, 0), StreamCheck(0, uid), StreamCheck(1, uid)]);
            AtWork(s, 0, uid) && AtWork(s, 1, uid) && !s.conns[0].lost && !s.conns[1].lost
  {
    var h := L.Local(pid);
    var actions := [Connect(0, h), Connect(1, h), Lock(0, uid, L.Serial, None, 0), StreamCheck(0, uid), StreamCheck(1, uid)];
    TwoConnect(w, pid, pid);
    var w1 := Step(w, actions[0]);
    var w2 := Step(w1, actions[1]);
    LockAndStream(w2, 0, uid);
    var w3 := Step(w2, actions[2]);
    var w4 := Step(w3, actions[3]);
    var w5 := Step(w4, actions[4]);
    ChecksPutToWork(w4, actions[4], 1, uid);
    StreamCheckKeepsOthers(w4, 1, uid);
    hide Step, Initial;
    RunIs(w, actions, [w, w1, w2, w3, w4, w5]);
  }

  lemma StreamCheckKeepsOthers(w: World, d: ConnId, uid: Uid)
    ensures forall c :: c in w.conns && c != d ==> c in DoStreamCheck(w, d, uid).conns && DoStreamCheck(w, d, uid).conns[c] == w.conns[c]
    ensures AtWork(DoStreamCheck(w, d, uid), d, uid) && !AtWork(w, d, uid) ==> !DoStreamCheck(w, d, uid).conns[d].lost
  {
    hide Visible, IsVirtual;
  }

  lemma ForcedOff(w: World, uid: Uid)
    requires uid in w.devices && uid in w.locks
    ensures var w' := Step(w, ForceUnlock(uid));
            && w'.devices == w.devices && w'.locks == w.locks - {uid} && w'.conns.Keys == w.conns.Keys
            && forall c :: c in w.conns ==> w'.conns[c] == if ActiveOn(w.conns[c], uid) then w.conns[c].(lost := true) else w.conns[c]
  {
  }

  /** While c streams a board, d takes it over after a forced unlock. */
  lemma TakenOver(w: World, uid: Uid, c: ConnId, d: ConnId)
    requires IsAttachedBoard(w, uid) && uid in w.locks && c != d && AtWork(w, c, uid) && IsReady(w, d) && w.conns[d].holder.Local?
    ensures var s := Step(Step(Step(w, ForceUnlock(uid)), Lock(d, uid, L.Serial, None, 0)), StreamCheck(d, uid));
            && AtWork(s, c, uid) && AtWork(s, d, uid) && s.conns[c].lost && !s.conns[d].lost
            && s.conns[c].holder == w.conns[c].holder && s.conns[d].holder == w.conns[d].holder
  {
    hide Step;
    ForcedOff(w, uid);
    LockAndStream(Step(w, ForceUnlock(uid)), d, uid);
  }

  /** Nor can the no-revocation hypothesis go: after force_unlock another process can lock and stream the board while the
      first one is still at it. */
  lemma RevocationLetsTwoWork(w: World, uid: Uid, p: int, q: int)
    requires Initial(w) && IsAttachedBoard(w, uid)
    ensures var s := Run(w, [Connect(0, L.Local(p)), Connect(1, L.Local(q)), Lock(0, uid, L.Serial, None, 0), StreamCheck(0, uid),
                             ForceUnlock(uid), Lock(1, uid, L.Serial, None, 0), StreamCheck(1, uid)]);
            AtWork(s, 0, uid) && AtWork(s, 1, uid) && s.conns[0].lost && !s.conns[1].lost
            && s.conns[0].holder == L.Local(p) && s.conns[1].holder == L.Local(q)
  {
    var actions := [Connect(0, L.Local(p)), Connect(1, L.Local(q)), Lock(0, uid, L.Serial, None, 0), StreamCheck(0, uid),
                    ForceUnlock(uid), Lock(1, uid, L.Serial, None, 0), StreamCheck(1, uid)];
    hide Step, Initial;
    TwoConnect(w, p, q);
    var w1 := Step(w, actions[0]);
    var w2 := Step(w1, actions[1]);
    LockAndStream(w2, 0, uid);
    var w3 := Step(w2, actions[2]);
    var w4 := Step(w3, actions[3]);
    TakenOver(w4, uid, 0, 1);
    var w5 := Step(w4, actions[4]);
    var w6 := Step(w5, actions[5]);
    var w7 := Step(w6, actions[6]);
    RunIs(w, actions, [w, w1, w2, w3, w4, w5, w6, w7]);
  }

  // ----- attached boards without a claim -----

  predicate AttachedIsClaimed(w: World, uid: Uid) {
    ScannedBefore(w, uid) ==> uid in w.claims
  }

  /** The result of a probe, or giving up on one, arrives for a board that is marked disconnected. */
  predicate Revives(w: World, a: Action, uid: Uid) {
    (a.GiveUpReprobe? || a.ProbeDone?) && a.uid == uid && uid in w.devices && IsDetached(w.devices[uid]) && !IsVirtual(w.devices[uid])
  }

  lemma ClaimsMissedOnlyByReviving(w: World, a: Action, uid: Uid)
    requires ClaimsAreAttached(w) && AttachedIsClaimed(w, uid) && !IsVirtualUid(uid)
    ensures AttachedIsClaimed(Step(w, a), uid) <==> !Revives(w, a, uid)
  {
    if a.Peer? {
      hide AfterStep;
      PeerStepKeepsScanned(w.devices, a.step, uid);
    } else if a.ScanAttach? || a.ScanDetach? || a.GiveUpReprobe? || a.ProbeDone? || a.Rescan? {
      ClaimsMissedInDaemonSteps(w, a, uid);
    } else if a.Register? || a.DetachBoard? {
      hide Bereft, KeyOf, IsReservedName, MatchesBoardNameRe;
    } else {
      hide Step;
      if a.SessionGone? || a.PeerReachable? {
        QuietStepsLeaveClaims(w, a);
      } else {
        OtherStepsLeaveStoreAlone(w, a);
      }
    }
  }

  lemma ClaimsMissedInDaemonSteps(w: World, a: Action, uid: Uid)
    requires a.ScanAttach? || a.ScanDetach? || a.GiveUpReprobe? || a.ProbeDone? || a.Rescan?
    requires ClaimsAreAttached(w) && AttachedIsClaimed(w, uid) && !IsVirtualUid(uid)
    ensures AttachedIsClaimed(Step(w, a), uid) <==> !Revives(w, a, uid)
  {
    hide ClaimsAreAttached, IsVirtualUid, Step;
    if a.Rescan? {
      RescanMissesNoClaim(w, uid);
    } else if a.ScanAttach? || a.ScanDetach? {
      ScansMissNoClaim(w, a, uid);
    } else {
      ProbesMissClaims(w, a, uid);
    }
  }

  lemma RescanMissesNoClaim(w: World, uid: Uid)
    requires AttachedIsClaimed(w, uid)
    ensures AttachedIsClaimed(Step(w, Rescan), uid)
  {
    hide IsVirtual, IsCandidate, Purgeable;
  }

  lemma ScansMissNoClaim(w: World, a: Action, uid: Uid)
    requires AttachedIsClaimed(w, uid) && (a.ScanAttach? || a.ScanDetach?)
    ensures AttachedIsClaimed(Step(w, a), uid)
  {
    hide Bereft, IsVirtualUid;
  }

  lemma ProbesMissClaims(w: World, a: Action, uid: Uid)
    requires ClaimsAreAttached(w) && AttachedIsClaimed(w, uid) && !IsVirtualUid(uid) && (a.GiveUpReprobe? || a.ProbeDone?)
    ensures AttachedIsClaimed(Step(w, a), uid) <==> !Revives(w, a, uid)
  {
    hide IsVirtualUid, Probed, Blanked;
    assert Step(w, a) == w.(devices := if a.GiveUpReprobe? then Blanked(w.devices, a.uid) else Probed(w.devices, a.uid, a.result))
      || (a.uid != uid && Step(w, a) == w);
    hide Step, ClaimsAreAttached;
    ProbedRow(w.devices, a.uid, uid, if a.ProbeDone? then a.result else None);
    if uid in w.claims {
      ClaimedIsAttached(w, uid);
    }
  }

  lemma ClaimedIsAttached(w: World, uid: Uid)
    requires ClaimsAreAttached(w) && uid in w.claims
    ensures ScannedBefore(w, uid)
  {
  }

  /** A probe's result leaves owner and port alone and always makes its row attached. */
  lemma ProbedRow(d: Devices, probed: Uid, uid: Uid, result: Option<Announcement>)
    ensures var p, b := Probed(d, probed, result), Blanked(d, probed);
            && (uid in d <==> uid in p) && (uid in d <==> uid in b)
            && (uid in d ==> p[uid] == if uid == probed then d[uid].(announced := p[uid].announced, state := p[uid].state, probed := true) else d[uid])
            && (uid in d ==> b[uid] == if uid == probed then d[uid].(state := ConnectedNoFirmware, probed := true) else d[uid])
            && (uid in d && uid == probed ==> p[uid].state != Disconnected)
  {
  }

  lemma PeerStepKeepsScanned(d: Devices, s: PeerStep, uid: Uid)
    ensures LocallyAttached(AfterStep(d, s), uid) <==> LocallyAttached(d, uid)
    ensures LocallyAttached(d, uid) ==> AfterStep(d, s)[uid] == d[uid]
  {
    hide AfterEvent, AfterSnapshot;
    if s.Live? {
      EventRespectsOwnership(d, s.host, s.event);
    } else {
      SnapshotRespectsOwnership(d, s.host, s.entries);
    }
  }

  /** A board is claimed whenever it is attached, all along a run, exactly when it was not stored as attached at start-up
      and no probe result or give-up ever lands on its disconnected row. */
  lemma {:induction false} AttachedIsClaimedIffNeverRevived(w: World, actions: seq<Action>, uid: Uid)
    requires Initial(w) && !IsVirtualUid(uid)
    ensures (forall i :: 0 <= i <= |actions| ==> AttachedIsClaimed(Run(w, actions[..i]), uid))
            <==> !ScannedBefore(w, uid) && forall i :: 0 <= i < |actions| ==> !Revives(Run(w, actions[..i]), actions[i], uid)
  {
    hide Step, AttachedIsClaimed, Revives, ScannedBefore;
    if actions == [] {
      UnclaimedAtFirst(w, uid);
      assert actions[..0] == [] && Run(w, []) == w;
    } else {
      var n := |actions| - 1;
      var init := actions[..n];
      assert forall i :: 0 <= i <= n ==> actions[..i] == init[..i];
      assert actions[..n + 1] == actions && init[..n] == init;
      AttachedIsClaimedIffNeverRevived(w, init, uid);
      assert forall i :: 0 <= i < n ==> init[i] == actions[i];
      if AttachedIsClaimed(Run(w, init), uid) {
        ReachableStatesAreSafe(w, init);
        ClaimsMissedOnlyByReviving(Run(w, init), actions[n], uid);
      }
    }
  }

  lemma UnclaimedAtFirst(w: World, uid: Uid)
    requires Initial(w)
    ensures AttachedIsClaimed(w, uid) <==> !ScannedBefore(w, uid)
  {
  }
}
