/** One scan cycle of the daemon: attach what is newly seen, detach what is gone, give up on overdue re-probes. */
module Daemons {
  import opened Options
  import opened DeviceStore
  import opened Sessions
  import opened SessionSafety
  import R = Registry
  import L = Locks

  datatype PortInfo = PortInfo(port: string, vidPid: string)

  predicate IsScanStep(a: Action) {
    a.ScanAttach? || a.ScanDetach? || a.GiveUpReprobe?
  }

  lemma RunAppended(w: World, steps: seq<Action>, a: Action)
    ensures Run(w, steps + [a]) == Step(Run(w, steps), a)
  {
    assert (steps + [a])[..|steps|] == steps;
  }

  /** The deadlines after some boards are detached: a flash lock that falls with its board starts a wait of its own. */
  function Armed(pending: map<Uid, int>, locks: L.Table, gone: set<Uid>, deadline: int): map<Uid, int> {
    pending + map u | u in gone && u in locks && locks[u].kind == L.Flash && !IsVirtualUid(u) :: deadline
  }

  /** Boards awaited after a flash that have not come back in time. */
  function Overdue(pending: map<Uid, int>, current: set<Uid>, now: int): set<Uid> {
    set u | u in pending && u !in current && now >= pending[u]
  }

  /** A wait is overdue from the deadline on, and only while the board is absent. */
  lemma OverdueFromTheDeadline(pending: map<Uid, int>, current: set<Uid>, now: int, uid: Uid)
    ensures uid in Overdue(pending, current, now) <==> uid in pending && uid !in current && pending[uid] <= now
  {
  }

  /** A board that loses a flash lock by going is awaited until the new deadline; every other wait stays as it was. */
  lemma ArmedIff(pending: map<Uid, int>, locks: L.Table, gone: set<Uid>, deadline: int, uid: Uid)
    ensures var rearmed := uid in gone && uid in locks && locks[uid].kind == L.Flash && !("sim-" <= uid);
            && (uid in Armed(pending, locks, gone, deadline) <==> rearmed || uid in pending)
            && (uid in Armed(pending, locks, gone, deadline) ==>
                  Armed(pending, locks, gone, deadline)[uid] == if rearmed then deadline else pending[uid])
  {
  }

  class Daemon {
    const shared: R.Registry
    const timeout: int
    var pending: map<Uid, int>

    /** A virtual board never re-enumerates, so none is ever awaited. */
    ghost predicate Valid()
      reads this
    {
      forall u :: u in pending ==> !IsVirtualUid(u)
    }

    constructor (shared: R.Registry, timeout: int)
      ensures Valid() && this.shared == shared && this.timeout == timeout && pending == map[]
    {
      this.shared, this.timeout := shared, timeout;
      pending := map[];
    }

    /** The hook of every release of a flash lock. */
    method OnFlashRelease(uid: Uid, now: int)
      requires Valid()
      modifies this`pending
      ensures Valid() && pending == if IsVirtualUid(uid) then old(pending) else old(pending)[uid := now + timeout]
    {
      if IsVirtualUid(uid) {
        return;
      }
      pending := pending[uid := now + timeout];
    }

    /** The end of a probe: silence after a flash means blank, and the wait is over unless the row is gone. */
    method ProbeOutcome(uid: Uid, result: Option<Announcement>) returns (known: bool)
      requires Valid() && !IsVirtualUid(uid)
      modifies this`pending, shared.store`devices
      ensures Valid() && (known <==> uid in old(shared.store.devices))
      ensures shared.State()
              == Step(old(shared.State()), if result.None? && uid in old(pending) then GiveUpReprobe(uid) else ProbeDone(uid, result))
      ensures pending == if known then old(pending) - {uid} else old(pending)
    {
      hide IsVirtualUid, R.Conns, Step, Probed, Blanked;
      ProbeEffect(shared.State(), uid, result);
      GiveUpEffect(shared.State(), uid);
      if result.None? && uid in pending {
        known := shared.store.ApplyKnownBlank(uid);
      } else {
        known := shared.store.ApplyProbeResult(uid, result);
      }
      if known {
        pending := pending - {uid};
      }
    }

    /** A newly seen uid is claimed first; a denied claim leaves no trace. */
    method Attach(uid: Uid, info: PortInfo, grant: bool)
      requires !IsVirtualUid(uid) && info.vidPid != VIRTUAL_VID_PID
      requires !ScannedBefore(shared.State(), uid)
      modifies shared`claims, shared`granted, shared.store`devices
      ensures shared.State() == Step(old(shared.State()), ScanAttach(uid, info.port, info.vidPid, grant))
    {
      hide IsVirtualUid, IsVirtual, R.Conns, Upserted;
      if !grant {
        return;
      }
      shared.claims := shared.claims[uid := shared.granted];
      shared.granted := shared.granted + 1;
      shared.store.UpsertDevice(uid, None, Some(info.port), Some(info.vidPid));
    }

    /** A uid that is gone loses its lock, its claim and its attached state. */
    method Detach(uid: Uid, now: int)
      requires Valid() && ScannedBefore(shared.State(), uid)
      modifies this`pending, shared`claims, shared`returned, shared`lost, shared.locks, shared.store`devices
      ensures Valid() && shared.State() == Step(old(shared.State()), ScanDetach(uid))
      ensures pending == Armed(old(pending), old(shared.locks.locks), {uid}, now + timeout)
    {
      hide Step, DoScanDetach, R.Conns, R.Working, ScannedBefore, L.Apply, Detached, IsVirtualUid, Armed;
      ArmedOne(pending, shared.locks.locks, uid, now + timeout);
      DetachStep(shared.State(), uid);
      R.ScanDetachedConns(shared.State(), shared.sessions, shared.lost, uid);
      var status := shared.locks.Status(uid);
      if status.Some? {
        var released := shared.locks.Release(uid, status.value.holder);
        shared.lost := shared.lost + R.Working(shared.sessions, {uid});
        if status.value.kind == L.Flash {
          OnFlashRelease(uid, now);
        }
      }
      if uid in shared.claims {
        shared.returned := shared.returned + [shared.claims[uid]];
        shared.claims := shared.claims - {uid};
      }
      var known := shared.store.MarkDisconnected(uid);
    }

    /** First loop: claim and attach what was not attached before. */
    method AttachNew(current: map<Uid, PortInfo>, grants: set<Uid>, previously: set<Uid>) returns (ghost steps: seq<Action>)
      requires forall u :: u in current ==> !IsVirtualUid(u) && current[u].vidPid != VIRTUAL_VID_PID
      requires forall u :: u in previously <==> ScannedBefore(shared.State(), u)
      modifies shared`claims, shared`granted, shared.store`devices
      ensures shared.State() == Run(old(shared.State()), steps) && forall a :: a in steps ==> IsScanStep(a)
      ensures forall u :: u !in current || u in previously || u !in grants ==> SameRow(old(shared.store.devices), shared.store.devices, u)
      ensures forall u :: u in current && u !in previously && u in grants ==> LocallyAttached(shared.store.devices, u)
    {
      hide Step, IsVirtualUid, R.Conns, IsVirtual;
      ghost var w := shared.State();
      steps := [];
      var todo := current.Keys;
      while todo != {}
        invariant todo <= current.Keys
        invariant shared.State() == Run(w, steps) && forall a :: a in steps ==> IsScanStep(a)
        invariant forall u :: u in todo || u !in current || u in previously || u !in grants ==> SameRow(w.devices, shared.store.devices, u)
        invariant forall u :: u in current && u !in todo && u !in previously && u in grants ==> LocallyAttached(shared.store.devices, u)
        decreases todo
      {
        var uid :| uid in todo;
        todo := todo - {uid};
        if uid !in previously {
          assert SameRow(w.devices, shared.store.devices, uid);
          ghost var a := ScanAttach(uid, current[uid].port, current[uid].vidPid, uid in grants);
          ghost var before := shared.State();
          Attach(uid, current[uid], uid in grants);
          AttachEffect(before, uid, current[uid], uid in grants);
          ghost var after := shared.State();
          assert forall u :: u != uid || uid !in grants ==> SameRow(before.devices, after.devices, u);
          SameRowTrans(w.devices, before.devices, after.devices);
          forall u | u in current && u !in todo && u !in previously && u in grants ensures LocallyAttached(after.devices, u) {
            if u != uid {
              assert LocallyAttached(before.devices, u) && SameRow(before.devices, after.devices, u);
            }
          }
          RunAppended(w, steps, a);
          steps := steps + [a];
        }
      }
    }

    /** Second loop: detach what was attached and is no longer seen. */
    method DetachGone(gone: set<Uid>, now: int) returns (ghost steps: seq<Action>)
      requires Valid() && forall u :: u in gone ==> ScannedBefore(shared.State(), u)
      modifies this`pending, shared`claims, shared`returned, shared`lost, shared.locks, shared.store`devices
      ensures Valid() && pending == Armed(old(pending), old(shared.locks.locks), gone, now + timeout)
      ensures shared.State() == Run(old(shared.State()), steps) && forall a :: a in steps ==> IsScanStep(a)
      ensures forall u :: u !in gone ==> SameRow(old(shared.store.devices), shared.store.devices, u)
      ensures forall u :: u in gone ==> IsGone(shared.State(), u)
    {
      hide Step, R.Conns, IsVirtual, IsVirtualUid, Armed;
      ghost var w := shared.State();
      ghost var p := pending;
      steps := [];
      var todo := gone;
      NoneArmed(pending, w.locks, now + timeout);
      assert gone - todo == {};
      while todo != {}
        invariant Valid() && todo <= gone
        invariant shared.State() == Run(w, steps) && forall a :: a in steps ==> IsScanStep(a)
        invariant shared.locks.locks == w.locks - (gone - todo) && pending == Armed(p, w.locks, gone - todo, now + timeout)
        invariant forall u :: u in todo || u !in gone ==> SameRow(w.devices, shared.store.devices, u)
        invariant forall u :: u in gone && u !in todo ==> IsGone(shared.State(), u)
        decreases todo
      {
        var uid :| uid in todo;
        ghost var done := gone - todo;
        OneMoreArmed(p, w.locks, done, uid, now + timeout);
        todo := todo - {uid};
        assert gone - todo == done + {uid};
        assert SameRow(w.devices, shared.store.devices, uid);
        ghost var before := shared.State();
        Detach(uid, now);
        DetachEffect(before, uid);
        ghost var after := shared.State();
        assert forall u :: u != uid ==> SameRow(before.devices, after.devices, u);
        forall u | u in gone && u !in todo ensures IsGone(after, u) {
          if u != uid {
            assert IsGone(before, u) && SameRow(before.devices, after.devices, u);
          }
        }
        SameRowTrans(w.devices, before.devices, after.devices);
        RunAppended(w, steps, ScanDetach(uid));
        steps := steps + [ScanDetach(uid)];
      }
      assert gone - todo == gone;
    }

    /** Third loop: a flashed board that never came back is marked blank. A missing row raises, ending the cycle. */
    method GiveUp(current: set<Uid>, now: int) returns (ghost steps: seq<Action>, aborted: bool)
      requires Valid()
      modifies this`pending, shared.store`devices
      ensures Valid()
      ensures shared.State() == Run(old(shared.State()), steps) && forall a :: a in steps ==> IsScanStep(a)
      ensures forall u :: u !in Overdue(old(pending), current, now) ==> SameRow(old(shared.store.devices), shared.store.devices, u)
      ensures shared.store.devices.Keys == old(shared.store.devices).Keys
      ensures aborted <==> exists u :: u in Overdue(old(pending), current, now) && u !in old(shared.store.devices)
      ensures old(pending) - Overdue(old(pending), current, now) == pending - Overdue(old(pending), current, now)
      ensures !aborted ==> pending == old(pending) - Overdue(old(pending), current, now)
      ensures !aborted ==> forall u :: u in Overdue(old(pending), current, now) ==> shared.store.devices[u].state == ConnectedNoFirmware
    {
      hide Step, IsVirtualUid, R.Conns;
      ghost var w := shared.State();
      ghost var p := pending;
      steps := [];
      aborted := false;
      var overdue := Overdue(pending, current, now);
      var todo := overdue;
      while todo != {}
        invariant todo <= overdue && pending == p - (overdue - todo)
        invariant shared.State() == Run(w, steps) && forall a :: a in steps ==> IsScanStep(a)
        invariant forall u :: u !in overdue ==> SameRow(w.devices, shared.store.devices, u)
        invariant shared.store.devices.Keys == w.devices.Keys
        invariant forall u :: u in overdue - todo ==> u in w.devices && shared.store.devices[u].state == ConnectedNoFirmware
        decreases todo
      {
        var uid :| uid in todo;
        ghost var before := shared.State();
        var known := shared.store.ApplyKnownBlank(uid);
        GiveUpEffect(before, uid);
        RunAppended(w, steps, GiveUpReprobe(uid));
        steps := steps + [GiveUpReprobe(uid)];
        if !known {
          assert uid in overdue && uid !in w.devices;
          return steps, true;
        }
        todo := todo - {uid};
        pending := pending - {uid};
        assert pending == p - (overdue - todo);
      }
      assert overdue - todo == overdue;
    }

    /** The locked part of a cycle. */
    method RunOnce(current: map<Uid, PortInfo>, grants: set<Uid>, now: int) returns (ghost steps: seq<Action>, aborted: bool)
      requires Valid()
      requires forall u :: u in current ==> !IsVirtualUid(u) && current[u].vidPid != VIRTUAL_VID_PID
      modifies this`pending, shared`claims, shared`granted, shared`returned, shared`lost, shared.locks, shared.store`devices
      ensures Valid()
      ensures shared.State() == Run(old(shared.State()), steps) && forall a :: a in steps ==> IsScanStep(a)
      ensures forall u :: u in current && (ScannedBefore(old(shared.State()), u) || u in grants) ==> LocallyAttached(shared.store.devices, u)
      ensures forall u :: u in current && !ScannedBefore(old(shared.State()), u) && u !in grants ==>
                SameRow(old(shared.store.devices), shared.store.devices, u)
      ensures var awaited := Armed(old(pending), old(shared.locks.locks), Gone(old(shared.State()), current.Keys), now + timeout);
              var overdue := Overdue(awaited, current.Keys, now);
              && (forall u :: ScannedBefore(old(shared.State()), u) && u !in current ==>
                    && u !in shared.claims && u !in shared.locks.locks && u in shared.store.devices
                    && (u in overdue || shared.store.devices[u].state == Disconnected))
              && (aborted <==> exists u :: u in overdue && u !in old(shared.store.devices))
              && (!aborted ==> pending == awaited - overdue
                               && forall u :: u in overdue ==> u in shared.store.devices && shared.store.devices[u].state == ConnectedNoFirmware)
    {
      hide Run, R.Conns, IsVirtualUid, Armed, Overdue;
      ghost var w := shared.State();
      var previously := set u | u in shared.store.devices && shared.store.devices[u].host.None?
                                && shared.store.devices[u].state != Disconnected && !IsVirtual(shared.store.devices[u]);
      assert forall u :: u in previously <==> ScannedBefore(w, u);
      ghost var attaching := AttachNew(current, grants, previously);
      ghost var mid := shared.State();
      var gone := previously - current.Keys;
      assert gone == Gone(w, current.Keys);
      assert forall u :: u in gone ==> SameRow(w.devices, mid.devices, u);
      ghost var detaching := DetachGone(gone, now);
      ghost var late := shared.State();
      ghost var awaited := pending;
      assert forall u :: u in gone ==> IsGone(late, u);
      ghost var giving;
      giving, aborted := GiveUp(current.Keys, now);
      ghost var last := shared.State();
      ghost var overdue := Overdue(awaited, current.Keys, now);
      OverdueIsAbsent(awaited, current.Keys, now);
      assert last.claims == late.claims && last.locks == late.locks;
      forall u | u in overdue ensures u in late.devices <==> u in w.devices {
        assert SameRow(w.devices, mid.devices, u);
        assert u in gone || SameRow(mid.devices, late.devices, u);
      }
      forall u | u in gone
        ensures u !in last.claims && u !in last.locks && u in last.devices && (u in overdue || last.devices[u].state == Disconnected)
      {
        assert IsGone(late, u) && (u in overdue || SameRow(late.devices, last.devices, u));
      }
      forall u | u in current ensures SameRow(mid.devices, shared.store.devices, u) {
        assert SameRow(mid.devices, late.devices, u) && SameRow(late.devices, shared.store.devices, u);
      }
      RunConcat(w, attaching, detaching);
      RunConcat(w, attaching + detaching, giving);
      steps := attaching + detaching + giving;
    }
  }

  /** The boards that were attached at the last scan and are not in this one. */
  ghost function Gone(w: World, current: set<Uid>): set<Uid> {
    set u | u in w.devices && ScannedBefore(w, u) && u !in current
  }

  lemma NoneArmed(pending: map<Uid, int>, locks: L.Table, deadline: int)
    ensures Armed(pending, locks, {}, deadline) == pending
  {
  }

  lemma ArmedOne(pending: map<Uid, int>, locks: L.Table, uid: Uid, deadline: int)
    ensures Armed(pending, locks, {uid}, deadline)
            == if uid in locks && locks[uid].kind == L.Flash && !IsVirtualUid(uid) then pending[uid := deadline] else pending
  {
    hide IsVirtualUid;
  }

  lemma DetachStep(w: World, uid: Uid)
    ensures Step(w, ScanDetach(uid)) == DoScanDetach(w, uid)
  {
    hide DoScanDetach;
  }

  lemma ProbeEffect(w: World, uid: Uid, result: Option<Announcement>)
    requires !IsVirtualUid(uid)
    ensures Step(w, ProbeDone(uid, result)) == w.(devices := Probed(w.devices, uid, result))
  {
    hide Probed;
  }

  /** Detaching boards one at a time arms the same deadlines as all at once. */
  lemma OneMoreArmed(pending: map<Uid, int>, locks: L.Table, gone: set<Uid>, uid: Uid, deadline: int)
    requires uid !in gone
    ensures Armed(Armed(pending, locks, gone, deadline), locks - gone, {uid}, deadline) == Armed(pending, locks, gone + {uid}, deadline)
  {
  }

  lemma OverdueIsAbsent(pending: map<Uid, int>, current: set<Uid>, now: int)
    ensures Overdue(pending, current, now) !! current
  {
  }

  /** No lock, no claim, and marked disconnected. */
  predicate IsGone(w: World, uid: Uid) {
    uid !in w.claims && uid !in w.locks && uid in w.devices && w.devices[uid].state == Disconnected
  }

  lemma {:induction false} RunConcat(w: World, a: seq<Action>, b: seq<Action>)
    ensures Run(w, a + b) == Run(Run(w, a), b)
  {
    hide Step;
    if b == [] {
      assert a + b == a;
    } else {
      RunConcat(w, a, b[..|b| - 1]);
      assert (a + b)[..|a + b| - 1] == a + b[..|b| - 1];
    }
  }

  predicate SameRow(d: Devices, d': Devices, uid: Uid) {
    (uid in d <==> uid in d') && (uid in d ==> d'[uid] == d[uid])
  }

  lemma SameRowTrans(a: Devices, b: Devices, c: Devices)
    ensures forall u :: SameRow(a, b, u) && SameRow(b, c, u) ==> SameRow(a, c, u)
  {
  }

  lemma AttachEffect(w: World, uid: Uid, info: PortInfo, grant: bool)
    requires !IsVirtualUid(uid) && info.vidPid != VIRTUAL_VID_PID && !ScannedBefore(w, uid)
    ensures var w' := Step(w, ScanAttach(uid, info.port, info.vidPid, grant));
            && w'.locks == w.locks
            && (forall u :: u != uid || !grant ==> SameRow(w.devices, w'.devices, u))
            && (grant ==> LocallyAttached(w'.devices, uid))
  {
    hide IsVirtualUid, IsVirtual;
  }

  lemma DetachEffect(w: World, uid: Uid)
    requires ScannedBefore(w, uid)
    ensures var w' := Step(w, ScanDetach(uid));
            && w'.locks == w.locks - {uid} && w'.claims == w.claims - {uid}
            && uid in w'.devices && w'.devices[uid].state == Disconnected
            && forall u :: u != uid ==> SameRow(w.devices, w'.devices, u)
  {
    hide IsVirtual, Bereft;
  }

  lemma GiveUpEffect(w: World, uid: Uid)
    requires !IsVirtualUid(uid)
    ensures Step(w, GiveUpReprobe(uid)) == w.(devices := Blanked(w.devices, uid))
    ensures forall u :: u != uid ==> SameRow(w.devices, Blanked(w.devices, uid), u)
    ensures Blanked(w.devices, uid).Keys == w.devices.Keys
  {
  }

  // ----- attached boards nobody claimed -----

  lemma NewlyAttached(w: World, uid: Uid, port: string, vidPid: string)
    requires uid !in w.devices && !IsVirtualUid(uid) && vidPid != VIRTUAL_VID_PID
    ensures var w' := Step(w, ScanAttach(uid, port, vidPid, true));
            ScannedBefore(w', uid) && uid in w'.claims && w'.locks == w.locks && w'.conns == w.conns
  {
    hide IsVirtualUid;
  }

  lemma FlashLocked(w: World, uid: Uid, pid: int)
    requires ScannedBefore(w, uid) && w.locks == map[] && w.conns == map[]
    ensures var w' := Step(Step(w, Connect(0, L.Local(pid))), Lock(0, uid, L.Flash, None, 0));
            w'.devices == w.devices && w'.claims == w.claims && uid in w'.locks && w'.locks[uid].kind == L.Flash
  {
    hide IsVirtual;
    var w1 := Step(w, Connect(0, L.Local(pid)));
    assert w1 == w.(conns := map[0 := Conn(L.Local(pid), {}, Ready, false)]);
    assert Step(w1, Lock(0, uid, L.Flash, None, 0)) == DoLock(w1, 0, uid, L.Flash, None, 0);
  }

  lemma Revived(w: World, a: Action, uid: Uid)
    requires Revives(w, a, uid) && !IsVirtualUid(uid)
    ensures ScannedBefore(Step(w, a), uid) && Step(w, a).claims == w.claims
  {
    hide IsVirtualUid;
  }

  /** Attached does not imply claimed. A board unplugged under its flash lock is awaited, and given up on when it stays away;
      or the probe of a board that was unplugged meanwhile ends. Either way its disconnected row becomes attached, unclaimed. */
  lemma AttachedNeedsNoClaim(w: World, uid: Uid, port: string, vidPid: string, pid: int, deadline: int)
    requires Initial(w) && uid !in w.devices && !IsVirtualUid(uid) && vidPid != VIRTUAL_VID_PID
    ensures var wait := [ScanAttach(uid, port, vidPid, true), Connect(0, L.Local(pid)), Lock(0, uid, L.Flash, None, 0)];
            var s := Run(w, wait + [ScanDetach(uid), GiveUpReprobe(uid)]);
            uid in Armed(map[], Run(w, wait).locks, {uid}, deadline) && ScannedBefore(s, uid) && uid !in s.claims
    ensures var s := Run(w, [ScanAttach(uid, port, vidPid, true), ScanDetach(uid), ProbeDone(uid, None)]);
            ScannedBefore(s, uid) && uid !in s.claims
  {
    hide Step, IsVirtualUid;
    var wait := [ScanAttach(uid, port, vidPid, true), Connect(0, L.Local(pid)), Lock(0, uid, L.Flash, None, 0)];
    var w1 := Step(w, wait[0]);
    NewlyAttached(w, uid, port, vidPid);
    var w2 := Step(w1, wait[1]);
    var w3 := Step(w2, wait[2]);
    FlashLocked(w1, uid, pid);
    RunIs(w, wait, [w, w1, w2, w3]);
    var w4 := Step(w3, ScanDetach(uid));
    GoneIsRevivable(w3, uid);
    Revived(w4, GiveUpReprobe(uid), uid);
    RunIs(w, wait + [ScanDetach(uid), GiveUpReprobe(uid)], [w, w1, w2, w3, w4, Step(w4, GiveUpReprobe(uid))]);
    var w5 := Step(w1, ScanDetach(uid));
    GoneIsRevivable(w1, uid);
    Revived(w5, ProbeDone(uid, None), uid);
    RunIs(w, [wait[0], ScanDetach(uid), ProbeDone(uid, None)], [w, w1, w5, Step(w5, ProbeDone(uid, None))]);
  }

  lemma GoneIsRevivable(w: World, uid: Uid)
    requires ScannedBefore(w, uid)
    ensures var w' := Step(w, ScanDetach(uid));
            uid !in w'.claims && Revives(w', GiveUpReprobe(uid), uid) && Revives(w', ProbeDone(uid, None), uid)
  {
  }
}
