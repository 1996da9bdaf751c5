/** The lock and session protocol as one transition system: every connection of both API servers, the two liveness sweeps,
    the operator's force_unlock, virtual boards, rescan, the daemon and the peers, all sharing one lock table and one store.
    A critical section under the shared lock is one step; streams and flashes run between steps. */
module Sessions {
  import opened Options
  import opened DeviceStore
  import opened Peering
  import opened VirtualBoardTable
  import L = Locks

  type ConnId = nat

  /** What a connection is doing outside the shared lock. */
  datatype Activity =
    | Ready
    | Dialing(uid: Uid)
    | Streaming(uid: Uid)
    | Flashing(uid: Uid)
    | StreamReleased(uid: Uid)
    | Ending
    | HoldingBoard

  /** An open connection. `lost` records that the lock it works under was taken from it. */
  datatype Conn = Conn(holder: L.HolderRef, acquired: set<Uid>, activity: Activity, lost: bool)

  datatype World = World(
    devices: Devices,
    peers: map<Host, bool>,
    locks: L.Table,
    conns: map<ConnId, Conn>,
    live: set<string>,
    boards: map<string, string>,
    claims: map<Uid, nat>,
    granted: nat,
    returned: seq<nat>)

  datatype Action =
    | Connect(c: ConnId, holder: L.HolderRef)
    | Lock(c: ConnId, uid: Uid, kind: L.Kind, lockLabel: Option<string>, now: int)
    | Unlock(c: ConnId, uid: Uid)
    | StreamCheck(c: ConnId, uid: Uid)
    | DialResult(c: ConnId, accepted: bool)
    | StreamRelease(c: ConnId)
    | StreamDiscard(c: ConnId)
    | FlashCheck(c: ConnId, uid: Uid)
    | FlashEnd(c: ConnId)
    | Close(c: ConnId)
    | SessionGone(session: string)
    | SweepLocal(dead: set<int>)
    | SweepRemote
    | ForceUnlock(uid: Uid)
    | Register(c: ConnId, name: string, role: string, serial: string)
    | DetachBoard(key: string)
    | Rescan
    | ScanAttach(uid: Uid, port: string, vidPid: string, grant: bool)
    | ScanDetach(uid: Uid)
    | GiveUpReprobe(uid: Uid)
    | ProbeDone(uid: Uid, result: Option<Announcement>)
    | Peer(step: PeerStep)
    | PeerReachable(host: Host, reachable: bool)

  // ----- predicates the steps use -----

  /** Is the connection inside a stream or a flash of uid, or dialing for one? */
  predicate ActiveOn(k: Conn, uid: Uid) {
    (k.activity.Dialing? || k.activity.Streaming? || k.activity.Flashing?) && k.activity.uid == uid
  }

  predicate IsReady(w: World, c: ConnId) {
    c in w.conns && w.conns[c].activity == Ready
  }

  /** A remote session sees only this registry's own real boards. */
  predicate Visible(k: Conn, r: Row) {
    k.holder.Remote? ==> r.host.None? && !IsVirtual(r)
  }

  predicate Found(w: World, c: ConnId, uid: Uid) {
    IsReady(w, c) && uid in w.devices && Visible(w.conns[c], w.devices[uid])
  }

  /** A locally-owned board that is gone must not be locked, streamed or flashed. */
  predicate IsDetached(r: Row) {
    r.host.None? && r.state == Disconnected
  }

  predicate HoldsLock(w: World, c: ConnId, uid: Uid) {
    c in w.conns && uid in w.locks && w.locks[uid].holder == w.conns[c].holder
  }

  predicate StreamKind(k: L.Kind) {
    k == L.Serial || k == L.Relay
  }

  predicate ScannedBefore(w: World, uid: Uid) {
    LocallyAttached(w.devices, uid) && !IsVirtual(w.devices[uid])
  }

  // ----- the steps -----

  /** The locks on some uids are gone; whoever was working under one of them has lost it. */
  function Freed(w: World, uids: set<Uid>): (w': World)
    ensures w'.conns.Keys == w.conns.Keys
    ensures forall c :: c in w.conns ==> w'.conns[c] == w.conns[c].(lost := w'.conns[c].lost)
    ensures forall c, u :: c in w.conns && ActiveOn(w.conns[c], u) ==> (w'.conns[c].lost <==> w.conns[c].lost || u in uids * w.locks.Keys)
  {
    w.(locks := w.locks - uids,
       conns := map c | c in w.conns :: Bereft(w.conns[c], uids * w.locks.Keys))
  }

  function Bereft(k: Conn, uids: set<Uid>): Conn {
    if exists u :: u in uids && ActiveOn(k, u) then k.(lost := true) else k
  }

  /** A release by a holder: nothing happens unless the lock is that holder's. */
  function ReleasedBy(w: World, holder: L.HolderRef, uid: Uid): World {
    if uid in w.locks && w.locks[uid].holder == holder then Freed(w, {uid}) else w
  }

  function WithConn(w: World, c: ConnId, k: Conn): World {
    w.(conns := w.conns[c := k])
  }

  function DoConnect(w: World, c: ConnId, h: L.HolderRef): World {
    if c in w.conns || (h.Remote? && h.session in w.live) then w
    else WithConn(w, c, Conn(h, {}, Ready, false)).(live := if h.Remote? then w.live + {h.session} else w.live)
  }

  function DoLock(w: World, c: ConnId, uid: Uid, kind: L.Kind, lockLabel: Option<string>, now: int): World {
    if !Found(w, c, uid) || IsDetached(w.devices[uid]) || uid in w.locks then w
    else
      var k := w.conns[c];
      WithConn(w, c, k.(acquired := k.acquired + {uid})).(locks := w.locks[uid := L.LockStatus(kind, k.holder, lockLabel, now)])
  }

  function DoUnlock(w: World, c: ConnId, uid: Uid): World {
    if !Found(w, c, uid) then w
    else
      var k := w.conns[c];
      WithConn(ReleasedBy(w, k.holder, uid), c, k.(acquired := k.acquired - {uid}))
  }

  function DoStreamCheck(w: World, c: ConnId, uid: Uid): World {
    if !Found(w, c, uid) || !HoldsLock(w, c, uid) || !StreamKind(w.locks[uid].kind) then w
    else
      var r := w.devices[uid];
      if r.port.None? || r.port.value == "" || IsDetached(r) then w
      else WithConn(w, c, w.conns[c].(activity := if IsVirtual(r) then Dialing(uid) else Streaming(uid), lost := false))
  }

  function DoDialResult(w: World, c: ConnId, accepted: bool): World {
    if c !in w.conns || !w.conns[c].activity.Dialing? then w
    else
      var k := w.conns[c];
      WithConn(w, c, if accepted then k.(activity := Streaming(k.activity.uid)) else k.(activity := Ready, lost := false))
  }

  /** The end of a stream: the lock is released under the shared lock, the bookkeeping follows outside it. */
  function DoStreamRelease(w: World, c: ConnId): World {
    if c !in w.conns || !w.conns[c].activity.Streaming? then w
    else
      var k := w.conns[c];
      WithConn(ReleasedBy(w, k.holder, k.activity.uid), c, k.(activity := StreamReleased(k.activity.uid), lost := false))
  }

  function DoStreamDiscard(w: World, c: ConnId): World {
    if c !in w.conns || !w.conns[c].activity.StreamReleased? then w
    else
      var k := w.conns[c];
      WithConn(w, c, k.(acquired := k.acquired - {k.activity.uid}, activity := Ending))
  }

  function DoFlashCheck(w: World, c: ConnId, uid: Uid): World {
    if !Found(w, c, uid) || !HoldsLock(w, c, uid) || w.locks[uid].kind != L.Flash || IsDetached(w.devices[uid]) then w
    else WithConn(w, c, w.conns[c].(activity := Flashing(uid), lost := false))
  }

  function DoFlashEnd(w: World, c: ConnId): World {
    if c !in w.conns || !w.conns[c].activity.Flashing? then w
    else
      var k := w.conns[c];
      var uid := k.activity.uid;
      WithConn(ReleasedBy(w, k.holder, uid), c, k.(acquired := k.acquired - {uid}, activity := Ready, lost := false))
  }

  /** The locks a closing connection releases: those it recorded that its holder still has. */
  function ReleasedOnClose(w: World, c: ConnId): set<Uid>
    requires c in w.conns
  {
    set u | u in w.conns[c].acquired && u in w.locks && w.locks[u].holder == w.conns[c].holder
  }

  function DoClose(w: World, c: ConnId): World {
    if c !in w.conns then w
    else
      var w' := Freed(w, ReleasedOnClose(w, c));
      w'.(conns := w'.conns - {c})
  }

  predicate SessionOpen(w: World, session: string) {
    exists c :: c in w.conns && w.conns[c].holder.Remote? && w.conns[c].holder.session == session
  }

  function DoSessionGone(w: World, session: string): World {
    if SessionOpen(w, session) then w else w.(live := w.live - {session})
  }

  function LocalDead(w: World, dead: set<int>): set<Uid> {
    set u | u in w.locks && w.locks[u].holder.Local? && w.locks[u].holder.pid in dead
  }

  function RemoteDead(w: World): set<Uid> {
    set u | u in w.locks && w.locks[u].holder.Remote? && w.locks[u].holder.session !in w.live
  }

  function DoForceUnlock(w: World, uid: Uid): World {
    if uid !in w.devices then w else Freed(w, {uid})
  }

  function DoRegister(w: World, c: ConnId, name: string, role: string, serial: string): World {
    if !IsReady(w, c) || w.conns[c].holder.Remote? then w
    else if !MatchesBoardNameRe(name) || IsReservedName(name) || KeyOf(name) in w.boards then w
    else
      WithConn(w, c, w.conns[c].(activity := HoldingBoard)).(
        boards := w.boards[KeyOf(name) := name],
        devices := w.devices[UidOf(name) := VirtualRow(name, role, serial)])
  }

  function DoDetachBoard(w: World, key: string): World {
    if key !in w.boards then w
    else
      var uid := UidOf(w.boards[key]);
      Freed(w, {uid}).(boards := w.boards - {key}, devices := VirtualRemoved(w.devices, uid))
  }

  /** The rows a rescan purges: the stale ones that are not locked. */
  function RescanUids(w: World): set<Uid> {
    set u | u in w.devices && IsCandidate(w.devices[u], w.peers) && u !in w.locks
  }

  function DoRescan(w: World): World {
    w.(devices := Purged(w.devices, w.peers, RescanUids(w)), peers := map h | h in w.peers && w.peers[h] :: w.peers[h])
  }

  /** One uid of a scan. Real probe uids and ids never look virtual. */
  function DoScanAttach(w: World, uid: Uid, port: string, vidPid: string, grant: bool): World {
    if IsVirtualUid(uid) || vidPid == VIRTUAL_VID_PID || ScannedBefore(w, uid) || !grant then w
    else
      w.(claims := w.claims[uid := w.granted], granted := w.granted + 1,
         devices := Upserted(w.devices, uid, None, Some(port), Some(vidPid)))
  }

  function DoScanDetach(w: World, uid: Uid): World {
    if !ScannedBefore(w, uid) then w
    else
      Freed(w, {uid}).(
        claims := w.claims - {uid},
        returned := if uid in w.claims then w.returned + [w.claims[uid]] else w.returned,
        devices := Detached(w.devices, uid))
  }

  function Step(w: World, a: Action): World {
    match a
    case Connect(c, h) => DoConnect(w, c, h)
    case Lock(c, uid, kind, lockLabel, now) => DoLock(w, c, uid, kind, lockLabel, now)
    case Unlock(c, uid) => DoUnlock(w, c, uid)
    case StreamCheck(c, uid) => DoStreamCheck(w, c, uid)
    case DialResult(c, accepted) => DoDialResult(w, c, accepted)
    case StreamRelease(c) => DoStreamRelease(w, c)
    case StreamDiscard(c) => DoStreamDiscard(w, c)
    case FlashCheck(c, uid) => DoFlashCheck(w, c, uid)
    case FlashEnd(c) => DoFlashEnd(w, c)
    case Close(c) => DoClose(w, c)
    case SessionGone(s) => DoSessionGone(w, s)
    case SweepLocal(dead) => Freed(w, LocalDead(w, dead))
    case SweepRemote => Freed(w, RemoteDead(w))
    case ForceUnlock(uid) => DoForceUnlock(w, uid)
    case Register(c, name, role, serial) => DoRegister(w, c, name, role, serial)
    case DetachBoard(key) => DoDetachBoard(w, key)
    case Rescan => DoRescan(w)
    case ScanAttach(uid, port, vidPid, grant) => DoScanAttach(w, uid, port, vidPid, grant)
    case ScanDetach(uid) => DoScanDetach(w, uid)
    case GiveUpReprobe(uid) => if IsVirtualUid(uid) then w else w.(devices := Blanked(w.devices, uid))
    case ProbeDone(uid, result) => if IsVirtualUid(uid) then w else w.(devices := Probed(w.devices, uid, result))
    case Peer(s) => w.(devices := AfterStep(w.devices, s))
    case PeerReachable(h, b) => w.(peers := w.peers[h := b])
  }

  function Run(w: World, actions: seq<Action>): World {
    if actions == [] then w else Step(Run(w, actions[..|actions| - 1]), actions[|actions| - 1])
  }

  /** At start-up nothing is open, locked, registered or claimed; the stored rows hold no virtual board. */
  ghost predicate Initial(w: World) {
    && w.locks == map[] && w.conns == map[] && w.live == {} && w.boards == map[]
    && w.claims == map[] && w.granted == 0 && w.returned == []
    && forall u :: u in w.devices && w.devices[u].host.None? ==> !IsVirtualUid(u) && !IsVirtual(w.devices[u])
  }

  // ----- the invariant, part by part -----

  /** An open connection that recorded uid and has not already released it. */
  predicate Owns(k: Conn, uid: Uid, holder: L.HolderRef) {
    k.holder == holder && uid in k.acquired && k.activity != StreamReleased(uid)
  }

  /** Every lock belongs to an open connection of its holder that has the uid in its set. */
  ghost predicate LocksAreOwned(w: World) {
    forall u :: u in w.locks ==> exists c :: c in w.conns && Owns(w.conns[c], u, w.locks[u].holder)
  }

  /** Open remote sessions are live, and no two connections share one. */
  ghost predicate SessionsAreLive(w: World) {
    && (forall c :: c in w.conns && w.conns[c].holder.Remote? ==> w.conns[c].holder.session in w.live)
    && forall c, d :: c in w.conns && d in w.conns && c != d && w.conns[c].holder.Remote? && w.conns[d].holder.Remote? ==>
         w.conns[c].holder.session != w.conns[d].holder.session
  }

  /** The kinds of lock an activity works under. */
  predicate KindFits(k: Conn, kind: L.Kind) {
    if k.activity.Flashing? then kind == L.Flash else StreamKind(kind)
  }

  /** Whoever streams, dials or flashes holds the lock for it, unless it was taken away. */
  ghost predicate WorkersHoldLocks(w: World) {
    forall c, u :: c in w.conns && ActiveOn(w.conns[c], u) && !w.conns[c].lost ==>
      u in w.locks && w.locks[u].holder == w.conns[c].holder && KindFits(w.conns[c], w.locks[u].kind)
  }

  /** A locked uid has a row, and if the row is this registry's own it is not disconnected. */
  ghost predicate LockedRowsArePresent(w: World) {
    forall u :: u in w.locks ==> u in w.devices && !IsDetached(w.devices[u])
  }

  /** Local rows under a sim- uid are exactly the live registrations. */
  ghost predicate BoardsMatchRows(w: World) {
    && (forall k :: k in w.boards ==>
          var u := UidOf(w.boards[k]);
          KeyOf(w.boards[k]) == k && u in w.devices && IsVirtual(w.devices[u]) && w.devices[u].state == Connected)
    && (forall u :: u in w.devices && w.devices[u].host.None? && IsVirtualUid(u) ==>
          KeyOf(u[4..]) in w.boards && w.boards[KeyOf(u[4..])] == u[4..])
  }

  /** A claimed uid is a real board attached here. */
  ghost predicate ClaimsAreAttached(w: World) {
    forall u :: u in w.claims ==> ScannedBefore(w, u) && !IsVirtualUid(u)
  }

  /** Each handle ever granted is either held for exactly one uid or was returned exactly once. */
  ghost predicate HandlesAreConserved(w: World) {
    && (forall u :: u in w.claims ==> w.claims[u] < w.granted && w.claims[u] !in w.returned)
    && (forall u, v :: u in w.claims && v in w.claims && u != v ==> w.claims[u] != w.claims[v])
    && (forall i :: 0 <= i < |w.returned| ==> w.returned[i] < w.granted)
    && (forall i, j :: 0 <= i < j < |w.returned| ==> w.returned[i] != w.returned[j])
    && forall h :: 0 <= h < w.granted ==> h in w.claims.Values || h in w.returned
  }

  ghost predicate Inv(w: World) {
    && LocksAreOwned(w) && SessionsAreLive(w) && WorkersHoldLocks(w) && LockedRowsArePresent(w)
    && BoardsMatchRows(w) && ClaimsAreAttached(w) && HandlesAreConserved(w)
  }
}
