/** The operations of the API servers and the daemon over their shared store and lock table, step by step. */
module Registry {
  import opened Options
  import opened DeviceStore
  import opened VirtualBoardTable
  import opened Sessions
  import L = Locks

  /** A connection handler's own variables. */
  datatype Session = Session(holder: L.HolderRef, acquired: set<Uid>, activity: Activity)

  /** A reply on the wire. */
  datatype Response =
    | Ok
    | Released(released: bool)
    | NotFound
    | NotLocked
    | LockedBy(status: L.LockStatus)
    | InvalidRequest
    | NameReserved
    | NameInUse

  ghost function ConnOf(s: Session, lost: bool): Conn {
    Conn(s.holder, s.acquired, s.activity, lost)
  }

  ghost function Conns(sessions: map<ConnId, Session>, lost: set<ConnId>): map<ConnId, Conn> {
    map c | c in sessions :: ConnOf(sessions[c], c in lost)
  }

  /** The connections working on one of some uids. */
  ghost function Working(sessions: map<ConnId, Session>, uids: set<Uid>): set<ConnId> {
    set c | c in sessions && exists u :: u in uids && ActiveOn(ConnOf(sessions[c], false), u)
  }

  lemma FreedConns(w: World, sessions: map<ConnId, Session>, lost: set<ConnId>, uids: set<Uid>)
    requires w.conns == Conns(sessions, lost) && uids <= w.locks.Keys
    ensures Freed(w, uids) == w.(locks := w.locks - uids, conns := Conns(sessions, lost + Working(sessions, uids)))
  {
    assert uids * w.locks.Keys == uids;
    var conns := Conns(sessions, lost + Working(sessions, uids));
    forall c | c in sessions ensures Bereft(w.conns[c], uids) == conns[c] {
      assert forall u :: ActiveOn(w.conns[c], u) == ActiveOn(ConnOf(sessions[c], false), u);
    }
    assert Freed(w, uids).conns == conns;
  }

  /** The same for one release by a holder. */
  lemma ReleasedConns(w: World, sessions: map<ConnId, Session>, lost: set<ConnId>, h: L.HolderRef, uid: Uid)
    requires w.conns == Conns(sessions, lost)
    ensures ReleasedBy(w, h, uid)
            == if uid in w.locks && w.locks[uid].holder == h
               then w.(locks := w.locks - {uid}, conns := Conns(sessions, lost + Working(sessions, {uid}))) else w
  {
    hide Freed, Conns, Working;
    if uid in w.locks {
      FreedConns(w, sessions, lost, {uid});
    }
  }

  lemma ConnsUpdated(sessions: map<ConnId, Session>, lost: set<ConnId>, c: ConnId, s: Session)
    ensures Conns(sessions[c := s], lost) == Conns(sessions, lost)[c := ConnOf(s, c in lost)]
    ensures Conns(sessions[c := s], lost - {c}) == Conns(sessions, lost)[c := ConnOf(s, false)]
  {
  }

  lemma ConnsAt(sessions: map<ConnId, Session>, lost: set<ConnId>)
    ensures Conns(sessions, lost).Keys == sessions.Keys
    ensures forall c :: c in sessions ==> Conns(sessions, lost)[c] == ConnOf(sessions[c], c in lost)
  {
  }

  lemma LockedConns(w: World, sessions: map<ConnId, Session>, lost: set<ConnId>, c: ConnId, uid: Uid, kind: L.Kind,
                    lockLabel: Option<string>, now: int)
    requires w.conns == Conns(sessions, lost) && c in sessions && sessions[c].activity == Ready
    ensures Step(w, Lock(c, uid, kind, lockLabel, now))
            == if uid !in w.devices || !Visible(ConnOf(sessions[c], false), w.devices[uid]) || IsDetached(w.devices[uid]) || uid in w.locks
               then w
               else w.(locks := w.locks[uid := L.LockStatus(kind, sessions[c].holder, lockLabel, now)],
                       conns := Conns(sessions[c := sessions[c].(acquired := sessions[c].acquired + {uid})], lost))
  {
    hide Conns, IsVirtual;
    ConnsAt(sessions, lost);
    ConnsUpdated(sessions, lost, c, sessions[c].(acquired := sessions[c].acquired + {uid}));
  }

  /** The steps that end a connection's work, by name. */
  lemma EndingSteps(w: World, c: ConnId)
    ensures Step(w, StreamRelease(c)) == DoStreamRelease(w, c) && Step(w, StreamDiscard(c)) == DoStreamDiscard(w, c)
    ensures Step(w, FlashEnd(c)) == DoFlashEnd(w, c)
  {
    hide DoStreamRelease, DoStreamDiscard, DoFlashEnd;
  }

  lemma UnlockedConns(w: World, sessions: map<ConnId, Session>, lost: set<ConnId>, c: ConnId, uid: Uid)
    requires w.conns == Conns(sessions, lost) && c in sessions && sessions[c].activity == Ready
    ensures var s := sessions[c];
            var holds := uid in w.locks && w.locks[uid].holder == s.holder;
            Step(w, Unlock(c, uid))
            == if uid !in w.devices || !Visible(ConnOf(s, false), w.devices[uid]) then w
               else w.(locks := if holds then w.locks - {uid} else w.locks,
                       conns := Conns(sessions[c := s.(acquired := s.acquired - {uid})], if holds then lost + Working(sessions, {uid}) else lost))
  {
    hide Conns, Working, IsVirtual, ReleasedBy;
    assert Step(w, Unlock(c, uid)) == DoUnlock(w, c, uid);
    hide Step;
    var s := sessions[c];
    ConnsAt(sessions, lost);
    ReleasedConns(w, sessions, lost, s.holder, uid);
    ReadyIsNotWorking(sessions, {uid}, c);
    ConnsUpdated(sessions, lost, c, s.(acquired := s.acquired - {uid}));
    ConnsUpdated(sessions, lost + Working(sessions, {uid}), c, s.(acquired := s.acquired - {uid}));
  }

  lemma StartedConns(w: World, sessions: map<ConnId, Session>, lost: set<ConnId>, c: ConnId, activity: Activity)
    requires w.conns == Conns(sessions, lost) && c in sessions
    ensures WithConn(w, c, w.conns[c].(activity := activity, lost := false))
            == w.(conns := Conns(sessions[c := sessions[c].(activity := activity)], lost - {c}))
  {
    hide Conns;
    ConnsAt(sessions, lost);
    ConnsUpdated(sessions, lost, c, sessions[c].(activity := activity));
  }

  lemma StreamCheckedConns(w: World, sessions: map<ConnId, Session>, lost: set<ConnId>, c: ConnId, uid: Uid)
    requires w.conns == Conns(sessions, lost) && c in sessions && sessions[c].activity == Ready
    ensures Step(w, StreamCheck(c, uid))
            == if uid !in w.devices || !Visible(ConnOf(sessions[c], false), w.devices[uid])
                  || uid !in w.locks || w.locks[uid].holder != sessions[c].holder || !StreamKind(w.locks[uid].kind)
                  || w.devices[uid].port.None? || w.devices[uid].port.value == "" || IsDetached(w.devices[uid])
               then w
               else w.(conns := Conns(sessions[c := sessions[c].(activity := if IsVirtual(w.devices[uid]) then Dialing(uid) else Streaming(uid))],
                                      lost - {c}))
  {
    hide Conns, IsVirtual, IsDetached;
    assert Step(w, StreamCheck(c, uid)) == DoStreamCheck(w, c, uid);
    hide Step;
    ConnsAt(sessions, lost);
    if uid in w.devices {
      StartedConns(w, sessions, lost, c, if IsVirtual(w.devices[uid]) then Dialing(uid) else Streaming(uid));
    }
  }

  lemma FlashCheckedConns(w: World, sessions: map<ConnId, Session>, lost: set<ConnId>, c: ConnId, uid: Uid)
    requires w.conns == Conns(sessions, lost) && c in sessions && sessions[c].activity == Ready
    ensures Step(w, FlashCheck(c, uid))
            == if uid !in w.devices || !Visible(ConnOf(sessions[c], false), w.devices[uid])
                  || uid !in w.locks || w.locks[uid].holder != sessions[c].holder || w.locks[uid].kind != L.Flash
                  || IsDetached(w.devices[uid])
               then w else w.(conns := Conns(sessions[c := sessions[c].(activity := Flashing(uid))], lost - {c}))
  {
    hide Conns, IsVirtual, IsDetached;
    assert Step(w, FlashCheck(c, uid)) == DoFlashCheck(w, c, uid);
    hide Step;
    ConnsAt(sessions, lost);
    StartedConns(w, sessions, lost, c, Flashing(uid));
  }

  lemma RegisteredConns(w: World, sessions: map<ConnId, Session>, lost: set<ConnId>, c: ConnId, name: string, role: string, serial: string)
    requires w.conns == Conns(sessions, lost) && c in sessions && sessions[c].activity == Ready && sessions[c].holder.Local?
    ensures DoRegister(w, c, name, role, serial)
            == if !MatchesBoardNameRe(name) || IsReservedName(name) || KeyOf(name) in w.boards then w
               else w.(boards := w.boards[KeyOf(name) := name], devices := w.devices[UidOf(name) := VirtualRow(name, role, serial)],
                       conns := Conns(sessions[c := sessions[c].(activity := HoldingBoard)], lost))
  {
    hide Conns, MatchesBoardNameRe, IsReservedName, KeyOf, UidOf, VirtualRow;
    ConnsAt(sessions, lost);
    ConnsUpdated(sessions, lost, c, sessions[c].(activity := HoldingBoard));
  }

  lemma DetachedConns(w: World, sessions: map<ConnId, Session>, lost: set<ConnId>, key: string)
    requires w.conns == Conns(sessions, lost) && key in w.boards
    ensures var uid := UidOf(w.boards[key]);
            Step(w, DetachBoard(key))
            == w.(boards := w.boards - {key}, devices := VirtualRemoved(w.devices, uid), locks := w.locks - {uid},
                  conns := if uid in w.locks then Conns(sessions, lost + Working(sessions, {uid})) else w.conns)
  {
    hide Conns, Working, VirtualRemoved, UidOf, Freed;
    var uid := UidOf(w.boards[key]);
    if uid in w.locks {
      FreedConns(w, sessions, lost, {uid});
    } else {
      FreeingNothing(w, uid);
    }
  }

  lemma ScanDetachedConns(w: World, sessions: map<ConnId, Session>, lost: set<ConnId>, uid: Uid)
    requires w.conns == Conns(sessions, lost) && ScannedBefore(w, uid)
    ensures DoScanDetach(w, uid)
            == w.(claims := w.claims - {uid}, returned := if uid in w.claims then w.returned + [w.claims[uid]] else w.returned,
                  devices := Detached(w.devices, uid), locks := w.locks - {uid},
                  conns := if uid in w.locks then Conns(sessions, lost + Working(sessions, {uid})) else w.conns)
  {
    hide Conns, Working, Detached, Freed, ScannedBefore;
    if uid in w.locks {
      FreedConns(w, sessions, lost, {uid});
    } else {
      FreeingNothing(w, uid);
    }
  }

  lemma ClosedConns(w: World, sessions: map<ConnId, Session>, lost: set<ConnId>, c: ConnId)
    requires w.conns == Conns(sessions, lost) && c in sessions
    ensures var gone := ReleasedOnClose(w, c);
            DoClose(w, c) == w.(locks := w.locks - gone, conns := Conns(sessions - {c}, lost + Working(sessions, gone)))
  {
    hide Freed, Working;
    var gone := ReleasedOnClose(w, c);
    FreedConns(w, sessions, lost, gone);
    assert Conns(sessions, lost + Working(sessions, gone)) - {c} == Conns(sessions - {c}, lost + Working(sessions, gone));
  }

  /** A connection that is ready for its next request is working on nothing. */
  lemma ReadyIsNotWorking(sessions: map<ConnId, Session>, uids: set<Uid>, c: ConnId)
    requires c in sessions && sessions[c].activity == Ready
    ensures c !in Working(sessions, uids)
  {
  }

  class Registry {
    const store: Store
    const locks: L.LockManager
    const boards: VirtualBoards
    var sessions: map<ConnId, Session>
    var live: set<string>
    var claims: map<Uid, nat>
    var granted: nat
    var returned: seq<nat>
    ghost var lost: set<ConnId>

    ghost function State(): World
      reads this, store, locks, boards
    {
      World(store.devices, store.peers, locks.locks, Conns(sessions, lost), live, boards.Names(), claims, granted, returned)
    }

    constructor (store: Store)
      ensures fresh(locks) && fresh(boards) && this.store == store && boards.Valid()
      ensures State() == World(store.devices, store.peers, map[], map[], {}, map[], map[], 0, [])
    {
      this.store := store;
      locks := new L.LockManager();
      boards := new VirtualBoards();
      sessions, live, claims, granted, returned, lost := map[], {}, map[], 0, [], {};
    }

    // ----- connections -----

    /** Accept a connection; a remote one brings a session id nobody else has. */
    method Accept(c: ConnId, holder: L.HolderRef)
      requires c !in sessions && (holder.Remote? ==> holder.session !in live)
      modifies this
      ensures State() == Step(old(State()), Connect(c, holder))
    {
      hide Conns;
      ConnsAt(sessions, lost);
      ConnsUpdated(sessions, lost, c, Session(holder, {}, Ready));
      if holder.Remote? {
        live := live + {holder.session};
      }
      sessions := sessions[c := Session(holder, {}, Ready)];
      lost := lost - {c};
    }

    /** Is uid a row this connection may use? */
    predicate Resolves(c: ConnId, uid: Uid)
      reads this, store
    {
      c in sessions && uid in store.devices
      && (sessions[c].holder.Remote? ==> store.devices[uid].host.None? && !IsVirtual(store.devices[uid]))
    }

    method OpLock(c: ConnId, uid: Uid, kind: L.Kind, lockLabel: Option<string>, now: int) returns (r: Response)
      requires c in sessions && sessions[c].activity == Ready
      modifies this, locks
      ensures State() == Step(old(State()), Lock(c, uid, kind, lockLabel, now))
      ensures r == if !old(Resolves(c, uid)) || IsDetached(store.devices[uid]) then NotFound
                   else if uid in old(locks.locks) then LockedBy(old(locks.locks)[uid]) else Ok
    {
      hide Step, Conns, L.Apply, IsVirtual;
      LockedConns(State(), sessions, lost, c, uid, kind, lockLabel, now);
      if !Resolves(c, uid) {
        return NotFound;
      }
      var record := store.devices[uid];
      if record.host.None? && record.state == Disconnected {
        return NotFound;
      }
      var s := sessions[c];
      var got := locks.Acquire(uid, kind, s.holder, lockLabel, now);
      if got.Held? {
        return LockedBy(got.current);
      }
      sessions := sessions[c := s.(acquired := s.acquired + {uid})];
      return Ok;
    }

    method OpUnlock(c: ConnId, uid: Uid) returns (r: Response)
      requires c in sessions && sessions[c].activity == Ready
      modifies this, locks
      ensures State() == Step(old(State()), Unlock(c, uid))
      ensures r == if !old(Resolves(c, uid)) then NotFound
                   else Released(uid in old(locks.locks) && old(locks.locks)[uid].holder == old(sessions[c]).holder)
    {
      hide Step, Conns, Working, L.Apply, IsVirtual;
      UnlockedConns(State(), sessions, lost, c, uid);
      if !Resolves(c, uid) {
        return NotFound;
      }
      var s := sessions[c];
      var released := locks.Release(uid, s.holder);
      if released {
        lost := lost + Working(sessions, {uid});
      }
      sessions := sessions[c := s.(acquired := s.acquired - {uid})];
      return Released(released);
    }

    /** The JSON half of `stream`: the connection's own serial or relay lock, a known port, a board that is attached. */
    method OpStreamPrecheck(c: ConnId, uid: Uid) returns (r: Response)
      requires c in sessions && sessions[c].activity == Ready
      modifies this
      ensures State() == Step(old(State()), StreamCheck(c, uid))
      ensures r == if !old(Resolves(c, uid)) then NotFound
                   else if uid !in locks.locks || !StreamKind(locks.locks[uid].kind) || locks.locks[uid].holder != old(sessions[c]).holder
                   then NotLocked
                   else if store.devices[uid].port.None? || store.devices[uid].port.value == "" then InvalidRequest
                   else if IsDetached(store.devices[uid]) then NotFound else Ok
    {
      hide Step, Conns, IsVirtual;
      StreamCheckedConns(State(), sessions, lost, c, uid);
      if !Resolves(c, uid) {
        return NotFound;
      }
      var s, record := sessions[c], store.devices[uid];
      var status := locks.Status(uid);
      if status.None? || (status.value.kind != L.Serial && status.value.kind != L.Relay) || status.value.holder != s.holder {
        return NotLocked;
      }
      if record.port.None? || record.port.value == "" {
        return InvalidRequest;
      }
      if record.host.None? && record.state == Disconnected {
        return NotFound;
      }
      var s' := s.(activity := if IsVirtual(record) then Dialing(uid) else Streaming(uid));
      sessions := sessions[c := s'];
      lost := lost - {c};
      return Ok;
    }

    /** The end of a stream on any exit path: release under the lock, then drop the uid from the connection's set. */
    method EndStream(c: ConnId)
      requires c in sessions && sessions[c].activity.Streaming?
      modifies this, locks
      ensures State() == Step(Step(old(State()), StreamRelease(c)), StreamDiscard(c))
    {
      hide Step, Conns, Working, ReleasedBy, L.Apply;
      ConnsAt(sessions, lost);
      var s := sessions[c];
      var uid := s.activity.uid;
      EndingSteps(State(), c);
      ReleasedConns(State(), sessions, lost, s.holder, uid);
      var released := locks.Release(uid, s.holder);
      if released {
        lost := lost + Working(sessions, {uid});
      }
      ConnsUpdated(sessions, lost, c, s.(activity := StreamReleased(uid)));
      sessions := sessions[c := s.(activity := StreamReleased(uid))];
      lost := lost - {c};
      assert State() == Step(old(State()), StreamRelease(c));
      EndingSteps(State(), c);
      ConnsAt(sessions, lost);
      ConnsUpdated(sessions, lost, c, s.(acquired := s.acquired - {uid}, activity := Ending));
      sessions := sessions[c := s.(acquired := s.acquired - {uid}, activity := Ending)];
    }

    /** The first critical section of `flash`. */
    method OpFlashCheck(c: ConnId, uid: Uid) returns (r: Response)
      requires c in sessions && sessions[c].activity == Ready
      modifies this
      ensures State() == Step(old(State()), FlashCheck(c, uid))
      ensures r == if !old(Resolves(c, uid)) then NotFound
                   else if uid !in locks.locks || locks.locks[uid].kind != L.Flash || locks.locks[uid].holder != old(sessions[c]).holder
                   then NotLocked
                   else if IsDetached(store.devices[uid]) then NotFound else Ok
    {
      hide Step, Conns, IsVirtual;
      FlashCheckedConns(State(), sessions, lost, c, uid);
      if !Resolves(c, uid) {
        return NotFound;
      }
      var s, record := sessions[c], store.devices[uid];
      var status := locks.Status(uid);
      if status.None? || status.value.kind != L.Flash || status.value.holder != s.holder {
        return NotLocked;
      }
      if record.host.None? && record.state == Disconnected {
        return NotFound;
      }
      sessions := sessions[c := s.(activity := Flashing(uid))];
      lost := lost - {c};
      return Ok;
    }

    /** The last critical section of `flash`, whatever the outcome of the run. */
    method EndFlash(c: ConnId)
      requires c in sessions && sessions[c].activity.Flashing?
      modifies this, locks
      ensures State() == Step(old(State()), FlashEnd(c))
    {
      hide Step, Conns, Working, ReleasedBy, L.Apply;
      ConnsAt(sessions, lost);
      var s := sessions[c];
      var uid := s.activity.uid;
      EndingSteps(State(), c);
      ReleasedConns(State(), sessions, lost, s.holder, uid);
      var released := locks.Release(uid, s.holder);
      if released {
        lost := lost + Working(sessions, {uid});
      }
      ConnsUpdated(sessions, lost, c, s.(acquired := s.acquired - {uid}, activity := Ready));
      sessions := sessions[c := s.(acquired := s.acquired - {uid}, activity := Ready)];
      lost := lost - {c};
    }

    /** Connection close: release exactly the locks this connection recorded and its holder still has. */
    method CloseConnection(c: ConnId)
      requires c in sessions
      modifies this, locks
      ensures State() == Step(old(State()), Close(c))
    {
      hide Freed, DoClose, Conns, Working, L.Apply;
      ghost var w := State();
      ClosedConns(w, sessions, lost, c);
      ConnsAt(sessions, lost);
      var s := sessions[c];
      var todo := s.acquired;
      ghost var done: set<Uid> := {};
      while todo != {}
        invariant todo <= s.acquired && sessions == old(sessions) && lost == old(lost)
        invariant done == ReleasedOnClose(w, c) - todo
        invariant locks.locks == w.locks - done
        invariant live == w.live && claims == w.claims && granted == w.granted && returned == w.returned
        decreases todo
      {
        var uid :| uid in todo;
        todo := todo - {uid};
        var released := locks.Release(uid, s.holder);
        if released {
          done := done + {uid};
        }
      }
      assert done == ReleasedOnClose(w, c);
      lost := lost + Working(sessions, done);
      sessions := sessions - {c};
    }

    /** After a remote connection is closed its session stops being live. */
    method DropSession(session: string)
      requires forall c :: c in sessions && sessions[c].holder.Remote? ==> sessions[c].holder.session != session
      modifies this
      ensures State() == Step(old(State()), SessionGone(session))
    {
      live := live - {session};
    }

    // ----- sweeps and the operator -----

    method SweepDeadProcesses(deadPids: set<int>) returns (released: seq<Uid>)
      modifies this, locks
      ensures State() == Step(old(State()), SweepLocal(deadPids))
      ensures forall u :: u in released <==>
                u in old(locks.locks) && old(locks.locks)[u].holder.Local? && old(locks.locks)[u].holder.pid in deadPids
      ensures locks.locks == old(locks.locks) - (set u | u in released)
    {
      hide Freed, L.Apply;
      ghost var w := State();
      released := locks.Sweep((h: L.HolderRef) => h.Local? ==> h.pid !in deadPids);
      ghost var gone := set u | u in released;
      assert gone == LocalDead(w, deadPids);
      assert locks.locks == w.locks - gone;
      FreedConns(w, sessions, lost, gone);
      lost := lost + Working(sessions, gone);
    }

    method SweepDeadSessions() returns (released: seq<Uid>)
      modifies this, locks
      ensures State() == Step(old(State()), SweepRemote)
      ensures forall u :: u in released <==>
                u in old(locks.locks) && old(locks.locks)[u].holder.Remote? && old(locks.locks)[u].holder.session !in live
      ensures locks.locks == old(locks.locks) - (set u | u in released)
    {
      hide Freed, L.Apply;
      ghost var w := State();
      var alive := live;
      released := locks.Sweep((h: L.HolderRef) => h.Remote? ==> h.session in alive);
      ghost var gone := set u | u in released;
      assert gone == RemoteDead(w);
      assert locks.locks == w.locks - gone;
      FreedConns(w, sessions, lost, gone);
      lost := lost + Working(sessions, gone);
    }

    /** Drops uid's lock whoever holds it, and reports what was broken. */
    method OpForceUnlock(uid: Uid) returns (r: Response, was: Option<L.LockStatus>)
      modifies this, locks
      ensures State() == Step(old(State()), ForceUnlock(uid))
      ensures r == if uid !in store.devices then NotFound else Released(uid in old(locks.locks))
      ensures was == if uid in store.devices && uid in old(locks.locks) then Some(old(locks.locks)[uid]) else None
    {
      hide Freed, L.Apply;
      if uid !in store.devices {
        return NotFound, None;
      }
      ghost var w := State();
      was := locks.ForceRelease(uid);
      if was.Some? {
        FreedConns(w, sessions, lost, {uid});
        lost := lost + Working(sessions, {uid});
      }
      FreeingNothing(w, uid);
      return Released(was.Some?), was;
    }

    // ----- virtual boards -----

    /** `fieldsValid` is the verdict on the endpoint, role, serial and simulated fields, which are checked with the name. */
    method OpRegisterBoard(c: ConnId, reg: Registration, role: string, serial: string, fieldsValid: bool) returns (r: Response)
      requires boards.Valid() && c in sessions && sessions[c].activity == Ready && sessions[c].holder.Local?
      modifies this, store, boards
      ensures boards.Valid()
      ensures State() == if fieldsValid then Step(old(State()), Register(c, reg.name, role, serial)) else old(State())
      ensures r == if !MatchesBoardNameRe(reg.name) || !fieldsValid then InvalidRequest
                   else if IsReservedName(reg.name) then NameReserved
                   else if KeyOf(reg.name) in old(boards.byName) then NameInUse else Ok
      ensures r == Ok ==> KeyOf(reg.name) in boards.byName && boards.byName[KeyOf(reg.name)] == reg
    {
      hide DoRegister, Conns, MatchesBoardNameRe, IsReservedName, KeyOf, UidOf, VirtualRow;
      RegisteredConns(State(), sessions, lost, c, reg.name, role, serial);
      if !MatchesBoardNameRe(reg.name) || !fieldsValid {
        return InvalidRequest;
      }
      if IsReservedName(reg.name) {
        return NameReserved;
      }
      var inUse := boards.NameInUse(reg.name);
      if inUse {
        return NameInUse;
      }
      ghost var w := State();
      boards.Add(reg);
      assert boards.Names() == w.boards[KeyOf(reg.name) := reg.name];
      store.UpsertVirtual(UidOf(reg.name), reg.name, role, serial);
      sessions := sessions[c := sessions[c].(activity := HoldingBoard)];
      assert State() == DoRegister(w, c, reg.name, role, serial);
      return Ok;
    }

    /** The end of a registration: release any lock on the board, drop its row. Nothing if it was already replaced. */
    method DetachVirtual(reg: Registration) returns (was: bool)
      requires boards.Valid()
      modifies this, store, locks, boards
      ensures boards.Valid()
      ensures was <==> KeyOf(reg.name) in old(boards.byName) && old(boards.byName)[KeyOf(reg.name)] == reg
      ensures State() == if was then Step(old(State()), DetachBoard(KeyOf(reg.name))) else old(State())
    {
      hide Step, DoDetachBoard, Conns, Working, L.Apply, KeyOf, UidOf, VirtualRemoved, IsVirtual;
      ghost var w := State();
      if KeyOf(reg.name) in boards.byName {
        DetachedConns(w, sessions, lost, KeyOf(reg.name));
      }
      was := boards.Remove(reg);
      if !was {
        return;
      }
      var uid := UidOf(reg.name);
      var status := locks.Status(uid);
      if status.Some? {
        var released := locks.Release(uid, status.value.holder);
        lost := lost + Working(sessions, {uid});
      }
      var removed := store.RemoveVirtual(uid);
    }

    // ----- rescan -----

    /** The locked part of `rescan`; a dry run reports the same sets and changes nothing. */
    method OpRescan(dryRun: bool) returns (removed: set<Uid>, skippedLocked: set<Uid>)
      modifies store
      ensures State() == if dryRun then old(State()) else Step(old(State()), Rescan)
      ensures removed == RescanUids(old(State()))
      ensures forall u :: u in skippedLocked <==> u in old(store.devices) && IsCandidate(old(store.devices)[u], old(store.peers)) && u in locks.locks
      ensures !dryRun ==> store.devices == old(store.devices) - removed
    {
      hide Step, Conns, IsCandidate, Purgeable, RescanUids, Purged, ReachablePeers;
      ghost var w := State();
      var candidates := store.CandidatesForPurge();
      skippedLocked := set u | u in candidates && u in locks.locks;
      removed := set u | u in candidates && u !in skippedLocked;
      RescanIs(w, removed);
      if dryRun {
        return;
      }
      var hosts := set h | h in store.peers && !store.peers[h];
      var deleted := store.Purge(removed, hosts);
      assert deleted == removed;
      assert store.peers == ReachablePeers(w.peers) by {
        ForgottenPeers(w.peers, hosts);
      }
    }
  }

  ghost function ReachablePeers(peers: map<Host, bool>): map<Host, bool> {
    map h | h in peers && peers[h] :: peers[h]
  }

  lemma ForgottenPeers(peers: map<Host, bool>, hosts: set<Host>)
    requires hosts == set h | h in peers && !peers[h]
    ensures (map h | h in peers && !(h in hosts && !peers[h]) :: peers[h]) == ReachablePeers(peers)
  {
  }

  /** What a rescan removes and keeps, once the stale unlocked rows are collected. */
  lemma RescanIs(w: World, removed: set<Uid>)
    requires forall u :: u in removed <==> u in w.devices && IsCandidate(w.devices[u], w.peers) && u !in w.locks
    ensures removed == RescanUids(w)
    ensures Step(w, Rescan) == w.(devices := w.devices - removed, peers := ReachablePeers(w.peers))
    ensures forall u :: u in removed ==> u in w.devices && Purgeable(w.devices[u], w.peers)
  {
    hide IsCandidate, Purgeable;
    forall u | u in removed ensures Purgeable(w.devices[u], w.peers) {
      CandidatesArePurgeable(w.devices[u], w.peers);
    }
    assert removed == RescanUids(w);
    assert Step(w, Rescan) == DoRescan(w);
    hide Step;
    assert Purged(w.devices, w.peers, removed) == w.devices - removed;
  }

  lemma FreeingNothing(w: World, uid: Uid)
    ensures uid !in w.locks ==> Freed(w, {uid}) == w
  {
    if uid !in w.locks {
      assert {uid} * w.locks.Keys == {};
      assert Freed(w, {uid}).conns == w.conns && Freed(w, {uid}).locks == w.locks;
    }
  }
}
