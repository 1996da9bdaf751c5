/** The exclusive lock table of one registry, and the two callbacks every change of it fires. */
module Locks {
  import opened Options

  type Uid = string

  datatype Kind = Serial | Relay | Flash | Debug

  /** A lock holder: a local process, or one session of a remote connection. */
  datatype HolderRef = Local(pid: int) | Remote(session: string, host: string)

  datatype LockStatus = LockStatus(kind: Kind, holder: HolderRef, lockLabel: Option<string>, since: int)

  type Table = map<Uid, LockStatus>

  /** The wording shown for a holder: "pid N", or "session S on H". */
  datatype Description = PidText(pid: int) | SessionText(session: string, host: string)

  function Describe(h: HolderRef): Description {
    match h
    case Local(pid) => PidText(pid)
    case Remote(session, host) => SessionText(session, host)
  }

  /** One call of a callback: the flash-release hook, or the display hook with or without a lock. */
  datatype Callback =
    | FlashReleased(uid: Uid)
    | Shown(uid: Uid, entry: Display)
    | Cleared(uid: Uid)

  /** What a display cache knows of one lock. */
  datatype Display = Display(kind: Kind, text: Description, lockLabel: Option<string>, since: int)

  function DisplayOf(s: LockStatus): Display {
    Display(s.kind, Describe(s.holder), s.lockLabel, s.since)
  }

  /** The table together with every callback fired so far. */
  datatype Journal = Journal(table: Table, log: seq<Callback>)

  const EMPTY := Journal(map[], [])

  // ----- effect of the operations -----

  function Acquired(j: Journal, uid: Uid, s: LockStatus): Journal {
    Journal(j.table[uid := s], j.log + [Shown(uid, DisplayOf(s))])
  }

  function Dropped(j: Journal, uid: Uid): Journal
    requires uid in j.table
  {
    Journal(j.table - {uid},
            j.log + (if j.table[uid].kind == Flash then [FlashReleased(uid)] else []) + [Cleared(uid)])
  }

  function DroppedEach(j: Journal, uids: seq<Uid>): Journal {
    if uids == [] then j
    else
      var before := DroppedEach(j, uids[..|uids| - 1]);
      var uid := uids[|uids| - 1];
      if uid in before.table then Dropped(before, uid) else before
  }

  datatype Op =
    | AcquireOp(uid: Uid, status: LockStatus)
    | ReleaseOp(uid: Uid, holder: HolderRef)
    | ForceReleaseOp(uid: Uid)
    | SweepOp(dead: seq<Uid>)

  function Apply(j: Journal, op: Op): Journal {
    match op
    case AcquireOp(uid, s) => if uid in j.table then j else Acquired(j, uid, s)
    case ReleaseOp(uid, h) => if uid in j.table && j.table[uid].holder == h then Dropped(j, uid) else j
    case ForceReleaseOp(uid) => if uid in j.table then Dropped(j, uid) else j
    case SweepOp(dead) => DroppedEach(j, dead)
  }

  function Run(ops: seq<Op>): Journal {
    if ops == [] then EMPTY else Apply(Run(ops[..|ops| - 1]), ops[|ops| - 1])
  }

  // ----- what the callbacks tell an observer -----

  /** A display cache fed with the callbacks, from empty. */
  function Replay(log: seq<Callback>): map<Uid, Display> {
    if log == [] then map[] else Noted(Replay(log[..|log| - 1]), log[|log| - 1])
  }

  function Noted(cache: map<Uid, Display>, c: Callback): map<Uid, Display> {
    match c
    case FlashReleased(_) => cache
    case Shown(uid, d) => cache[uid := d]
    case Cleared(uid) => cache - {uid}
  }

  function FlashAcquires(log: seq<Callback>, uid: Uid): nat {
    if log == [] then 0
    else
      var last := log[|log| - 1];
      FlashAcquires(log[..|log| - 1], uid) + (if last.Shown? && last.uid == uid && last.entry.kind == Flash then 1 else 0)
  }

  function FlashReleases(log: seq<Callback>, uid: Uid): nat {
    if log == [] then 0
    else FlashReleases(log[..|log| - 1], uid) + (if log[|log| - 1] == FlashReleased(uid) then 1 else 0)
  }

  function DisplayTable(t: Table): map<Uid, Display> {
    map uid | uid in t :: DisplayOf(t[uid])
  }

  predicate FlashHeld(t: Table, uid: Uid) {
    uid in t && t[uid].kind == Flash
  }

  /** The cache equals the table, and flash releases trail flash acquires by exactly the held flash lock. */
  ghost predicate Faithful(j: Journal) {
    && Replay(j.log) == DisplayTable(j.table)
    && forall uid :: FlashReleases(j.log, uid) + (if FlashHeld(j.table, uid) then 1 else 0) == FlashAcquires(j.log, uid)
  }

  lemma OneMore(log: seq<Callback>, c: Callback)
    ensures Replay(log + [c]) == Noted(Replay(log), c)
    ensures forall uid :: FlashAcquires(log + [c], uid)
                          == FlashAcquires(log, uid) + (if c.Shown? && c.uid == uid && c.entry.kind == Flash then 1 else 0)
    ensures forall uid :: FlashReleases(log + [c], uid) == FlashReleases(log, uid) + (if c == FlashReleased(uid) then 1 else 0)
  {
    assert (log + [c])[..|log|] == log;
  }

  lemma AcquiredIsFaithful(j: Journal, uid: Uid, s: LockStatus)
    requires Faithful(j) && uid !in j.table
    ensures Faithful(Acquired(j, uid, s))
  {
    OneMore(j.log, Shown(uid, DisplayOf(s)));
    assert Replay(Acquired(j, uid, s).log) == DisplayTable(Acquired(j, uid, s).table);
  }

  lemma DroppedIsFaithful(j: Journal, uid: Uid)
    requires Faithful(j) && uid in j.table
    ensures Faithful(Dropped(j, uid))
  {
    var middle := j.log + (if j.table[uid].kind == Flash then [FlashReleased(uid)] else []);
    if j.table[uid].kind == Flash {
      OneMore(j.log, FlashReleased(uid));
    } else {
      assert middle == j.log;
    }
    OneMore(middle, Cleared(uid));
    assert Replay(Dropped(j, uid).log) == DisplayTable(Dropped(j, uid).table);
    assert forall u :: FlashHeld(Dropped(j, uid).table, u) <==> u != uid && FlashHeld(j.table, u);
  }

  lemma {:induction false} DroppedEachIsFaithful(j: Journal, uids: seq<Uid>)
    requires Faithful(j)
    ensures Faithful(DroppedEach(j, uids))
  {
    if uids != [] {
      var before := DroppedEach(j, uids[..|uids| - 1]);
      DroppedEachIsFaithful(j, uids[..|uids| - 1]);
      if uids[|uids| - 1] in before.table {
        DroppedIsFaithful(before, uids[|uids| - 1]);
      }
    }
  }

  /** After any sequence of operations, an observer of the callbacks knows the exact lock table. */
  lemma {:induction false} EveryRunIsFaithful(ops: seq<Op>)
    ensures Faithful(Run(ops))
  {
    if ops == [] {
      assert DisplayTable(EMPTY.table) == map[];
    } else {
      var before, op := Run(ops[..|ops| - 1]), ops[|ops| - 1];
      EveryRunIsFaithful(ops[..|ops| - 1]);
      match op {
        case AcquireOp(uid, s) => if uid !in before.table { AcquiredIsFaithful(before, uid, s); }
        case ReleaseOp(uid, h) => if uid in before.table && before.table[uid].holder == h { DroppedIsFaithful(before, uid); }
        case ForceReleaseOp(uid) => if uid in before.table { DroppedIsFaithful(before, uid); }
        case SweepOp(dead) => DroppedEachIsFaithful(before, dead);
      }
    }
  }

  /** Told without the table's own terms: what the callbacks show is there, and is what was acquired; what they do not show is free. */
  lemma CallbacksShowTheLocks(ops: seq<Op>, uid: Uid)
    ensures uid in Replay(Run(ops).log) <==> uid in Run(ops).table
    ensures uid in Run(ops).table ==>
              var s := Run(ops).table[uid];
              Replay(Run(ops).log)[uid] == Display(s.kind, match s.holder case Local(pid) => PidText(pid) case Remote(session, host) => SessionText(session, host),
                                                   s.lockLabel, s.since)
  {
    EveryRunIsFaithful(ops);
  }

  /** The operation is not a release of uid by its holder, a forced release of it, or a sweep that finds it dead. */
  predicate Spares(op: Op, uid: Uid, holder: HolderRef) {
    match op
    case AcquireOp(_, _) => true
    case ReleaseOp(u, h) => u != uid || h != holder
    case ForceReleaseOp(u) => u != uid
    case SweepOp(dead) => uid !in dead
  }

  /** A holder keeps its lock, unchanged, through any operations with no release by that holder, no forced release and no sweep of it. */
  lemma {:induction false} OnlyOwnOrForcedReleaseEndsALock(ops: seq<Op>, k: nat, uid: Uid)
    requires k <= |ops| && uid in Run(ops[..k]).table
    requires forall i :: k <= i < |ops| ==> Spares(ops[i], uid, Run(ops[..k]).table[uid].holder)
    ensures uid in Run(ops).table && Run(ops).table[uid] == Run(ops[..k]).table[uid]
  {
    if k == |ops| {
      assert ops[..k] == ops;
    } else {
      var prefix, op := ops[..|ops| - 1], ops[|ops| - 1];
      assert prefix[..k] == ops[..k];
      assert forall i :: k <= i < |prefix| ==> prefix[i] == ops[i];
      OnlyOwnOrForcedReleaseEndsALock(prefix, k, uid);
      if op.SweepOp? {
        DroppedEachTable(Run(prefix), op.dead);
      }
    }
  }

  lemma {:induction false} DroppedEachTable(j: Journal, uids: seq<Uid>)
    ensures DroppedEach(j, uids).table == j.table - (set u | u in uids)
  {
    if uids != [] {
      var init, uid := uids[..|uids| - 1], uids[|uids| - 1];
      DroppedEachTable(j, init);
      assert uids == init + [uid];
      assert (set u | u in uids) == (set u | u in init) + {uid};
    }
  }

  // ----- the lock manager itself -----

  /** acquire either grants a free lock or reports the status of the one already held. */
  datatype AcquireResult = Granted | Held(current: LockStatus)

  class LockManager {
    var locks: Table
    var log: seq<Callback>

    ghost function State(): Journal
      reads this
    {
      Journal(locks, log)
    }

    constructor ()
      ensures State() == EMPTY
    {
      locks, log := map[], [];
    }

    method Acquire(uid: Uid, kind: Kind, holder: HolderRef, lockLabel: Option<string>, now: int) returns (r: AcquireResult)
      modifies this
      ensures State() == Apply(old(State()), AcquireOp(uid, LockStatus(kind, holder, lockLabel, now)))
      ensures r == if uid in old(locks) then Held(old(locks)[uid]) else Granted
      ensures locks == if r.Granted? then old(locks)[uid := LockStatus(kind, holder, lockLabel, now)] else old(locks)
      ensures log == old(log) + (if r.Granted? then [Shown(uid, Display(kind, Describe(holder), lockLabel, now))] else [])
    {
      if uid in locks {
        return Held(locks[uid]);
      }
      var s := LockStatus(kind, holder, lockLabel, now);
      locks := locks[uid := s];
      log := log + [Shown(uid, Display(kind, Describe(holder), lockLabel, now))];
      return Granted;
    }

    method Release(uid: Uid, holder: HolderRef) returns (released: bool)
      modifies this
      ensures State() == Apply(old(State()), ReleaseOp(uid, holder))
      ensures released <==> uid in old(locks) && old(locks)[uid].holder == holder
      ensures locks == if released then old(locks) - {uid} else old(locks)
    {
      if uid !in locks || locks[uid].holder != holder {
        return false;
      }
      ReleaseEntry(uid);
      return true;
    }

    method ForceRelease(uid: Uid) returns (was: Option<LockStatus>)
      modifies this
      ensures State() == Apply(old(State()), ForceReleaseOp(uid))
      ensures was == if uid in old(locks) then Some(old(locks)[uid]) else None
      ensures locks == old(locks) - {uid}
    {
      if uid !in locks {
        return None;
      }
      was := Some(locks[uid]);
      ReleaseEntry(uid);
    }

    /** Releases exactly the locks whose holder is reported dead, each once. */
    method Sweep(isAlive: HolderRef -> bool) returns (dead: seq<Uid>)
      modifies this
      ensures forall u :: u in dead <==> u in old(locks) && !isAlive(old(locks)[u].holder)
      ensures forall i, j :: 0 <= i < j < |dead| ==> dead[i] != dead[j]
      ensures State() == Apply(old(State()), SweepOp(dead))
      ensures locks == map u | u in old(locks) && isAlive(old(locks)[u].holder) :: old(locks)[u]
    {
      dead := [];
      var todo := locks.Keys;
      while todo != {}
        invariant todo <= locks.Keys
        invariant forall u :: u in dead <==> u in locks && u !in todo && !isAlive(locks[u].holder)
        invariant forall i, j :: 0 <= i < j < |dead| ==> dead[i] != dead[j]
        decreases todo
      {
        var u :| u in todo;
        if !isAlive(locks[u].holder) {
          dead := dead + [u];
        }
        todo := todo - {u};
      }
      for i := 0 to |dead|
        invariant State() == DroppedEach(old(State()), dead[..i])
        invariant forall u :: u in locks <==> u in old(locks) && u !in dead[..i]
        invariant forall u :: u in locks ==> locks[u] == old(locks)[u]
      {
        assert dead[..i + 1] == dead[..i] + [dead[i]];
        assert dead[i] in dead && dead[i] !in dead[..i];
        ReleaseEntry(dead[i]);
      }
      assert dead[..|dead|] == dead;
    }

    /** The shared release path: drop the entry, fire the flash hook for a flash lock, then the display hook. */
    method ReleaseEntry(uid: Uid)
      requires uid in locks
      modifies this
      ensures State() == Dropped(old(State()), uid)
      ensures locks == old(locks) - {uid}
      ensures log == old(log) + (if old(locks)[uid].kind == Flash then [FlashReleased(uid), Cleared(uid)] else [Cleared(uid)])
    {
      var was := locks[uid];
      locks := locks - {uid};
      if was.kind == Flash {
        log := log + [FlashReleased(uid)];
      }
      log := log + [Cleared(uid)];
    }

    method Status(uid: Uid) returns (s: Option<LockStatus>)
      ensures s == if uid in locks then Some(locks[uid]) else None
    {
      s := if uid in locks then Some(locks[uid]) else None;
    }
  }
}
