/** Fan-out of events to subscriber queues, under any interleaving of publishers, subscribers and unsubscribers. */
module EventBuses {
  type Event = string
  type QueueId = nat
  type PublisherId = nat

  /** One published event: who published it, as its how-manieth. */
  datatype Item = Item(publisher: PublisherId, serial: nat, event: Event)

  /** A publisher between calls, or inside publish with the puts it has still to make. */
  datatype Publisher = Idle(count: nat) | Putting(item: Item, todo: set<QueueId>)

  datatype Bus = Bus(subscribers: set<QueueId>, history: map<QueueId, seq<Item>>, publishers: map<PublisherId, Publisher>)

  const EMPTY := Bus({}, map[], map[])

  /** The atomic steps. A publish is one locked snapshot and then one unlocked put per subscriber found. */
  datatype Action =
    | Subscribe(q: QueueId)
    | Unsubscribe(q: QueueId)
    | Snapshot(p: PublisherId, event: Event)
    | Put(p: PublisherId, q: QueueId)

  function StateOf(b: Bus, p: PublisherId): Publisher {
    if p in b.publishers then b.publishers[p] else Idle(0)
  }

  function AfterPuts(item: Item, todo: set<QueueId>): Publisher {
    if todo == {} then Idle(item.serial + 1) else Putting(item, todo)
  }

  /** A step that is not possible in the state changes nothing. */
  function Step(b: Bus, a: Action): Bus {
    match a
    case Subscribe(q) =>
      if q in b.history then b else b.(subscribers := b.subscribers + {q}, history := b.history[q := []])
    case Unsubscribe(q) => b.(subscribers := b.subscribers - {q})
    case Snapshot(p, e) =>
      var s := StateOf(b, p);
      if s.Putting? then b
      else b.(publishers := b.publishers[p := AfterPuts(Item(p, s.count, e), b.subscribers)])
    case Put(p, q) =>
      var s := StateOf(b, p);
      if s.Idle? || q !in s.todo || q !in b.history then b
      else b.(history := b.history[q := b.history[q] + [s.item]],
              publishers := b.publishers[p := AfterPuts(s.item, s.todo - {q})])
  }

  function Run(actions: seq<Action>): Bus {
    if actions == [] then EMPTY else Step(Run(actions[..|actions| - 1]), actions[|actions| - 1])
  }

  // ----- what a subscriber is owed -----

  /** Is q subscribed after some steps? A queue is new when it is first subscribed; after unsubscribing it never comes back. */
  predicate InForce(actions: seq<Action>, q: QueueId) {
    actions != [] &&
    var init, a := actions[..|actions| - 1], actions[|actions| - 1];
    if a == Subscribe(q) then Subscribe(q) in init ==> InForce(init, q)
    else a != Unsubscribe(q) && InForce(init, q)
  }

  /** The bus knows exactly the queues that the steps say are subscribed, and has a history for exactly those ever subscribed. */
  lemma {:induction false} SubscribersAreInForce(actions: seq<Action>, q: QueueId)
    ensures q in Run(actions).subscribers <==> InForce(actions, q)
    ensures q in Run(actions).history <==> Subscribe(q) in actions
  {
    if actions != [] {
      var init, a := actions[..|actions| - 1], actions[|actions| - 1];
      SubscribersAreInForce(init, q);
      RunIsWellFormed(init);
      assert actions == init + [a];
    }
  }

  /** The events whose snapshot was taken while q was subscribed, in snapshot order. */
  function Due(actions: seq<Action>, q: QueueId): seq<Item> {
    if actions == [] then []
    else
      var before := Run(actions[..|actions| - 1]);
      var a := actions[|actions| - 1];
      Due(actions[..|actions| - 1], q)
      + (if a.Snapshot? && StateOf(before, a.p).Idle? && InForce(actions[..|actions| - 1], q) then [Item(a.p, StateOf(before, a.p).count, a.event)]
         else [])
  }

  function Snapped(b: Bus, a: Action, q: QueueId): seq<Item> {
    if a.Snapshot? && StateOf(b, a.p).Idle? && q in b.subscribers then [Item(a.p, StateOf(b, a.p).count, a.event)] else []
  }

  lemma DueAfterStep(init: seq<Action>, a: Action, q: QueueId)
    ensures Due(init + [a], q) == Due(init, q) + Snapped(Run(init), a, q)
  {
    assert (init + [a])[..|init|] == init;
    SubscribersAreInForce(init, q);
  }

  /** The items of one publisher, in order. */
  function Of(p: PublisherId, items: seq<Item>): seq<Item> {
    if items == [] then []
    else Of(p, items[..|items| - 1]) + (if items[|items| - 1].publisher == p then [items[|items| - 1]] else [])
  }

  /** The put publisher p still owes queue q. */
  function PendingFrom(b: Bus, p: PublisherId, q: QueueId): seq<Item> {
    var s := StateOf(b, p);
    if s.Putting? && q in s.todo then [s.item] else []
  }

  function HistoryOf(b: Bus, q: QueueId): seq<Item> {
    if q in b.history then b.history[q] else []
  }

  predicate PendingTo(b: Bus, i: Item, q: QueueId) {
    PendingFrom(b, i.publisher, q) == [i]
  }

  /** The serial number publisher p uses for its next snapshot. */
  function NextSerial(b: Bus, p: PublisherId): nat {
    match StateOf(b, p)
    case Idle(n) => n
    case Putting(i, _) => i.serial + 1
  }

  ghost predicate WellFormed(b: Bus) {
    && b.subscribers <= b.history.Keys
    && forall p :: StateOf(b, p).Putting? ==>
         StateOf(b, p).item.publisher == p && StateOf(b, p).todo <= b.history.Keys && StateOf(b, p).todo != {}
  }

  lemma StepIsWellFormed(b: Bus, a: Action)
    requires WellFormed(b)
    ensures WellFormed(Step(b, a))
  {
    var c := Step(b, a);
    assert b.history.Keys <= c.history.Keys;
    forall p ensures StateOf(c, p).Putting? ==> StateOf(c, p).item.publisher == p && StateOf(c, p).todo <= c.history.Keys && StateOf(c, p).todo != {} {
      assert StateOf(b, p).Putting? ==> StateOf(b, p).todo <= b.history.Keys && StateOf(b, p).todo != {};
    }
  }

  lemma {:induction false} RunIsWellFormed(actions: seq<Action>)
    ensures WellFormed(Run(actions))
  {
    if actions != [] {
      RunIsWellFormed(actions[..|actions| - 1]);
      StepIsWellFormed(Run(actions[..|actions| - 1]), actions[|actions| - 1]);
    }
  }

  lemma OfAppended(p: PublisherId, items: seq<Item>, i: Item)
    ensures Of(p, items + [i]) == Of(p, items) + (if i.publisher == p then [i] else [])
  {
    assert (items + [i])[..|items|] == items;
  }

  /** What a step does to a queue's history. */
  lemma StepHistory(b: Bus, a: Action, q: QueueId)
    requires WellFormed(b)
    ensures HistoryOf(Step(b, a), q)
            == if a.Put? && a.q == q && PendingFrom(b, a.p, q) != [] then HistoryOf(b, q) + PendingFrom(b, a.p, q) else HistoryOf(b, q)
  {
  }

  /** What a step does to the put a publisher owes a queue. */
  lemma StepPending(b: Bus, a: Action, p: PublisherId, q: QueueId)
    requires WellFormed(b)
    ensures PendingFrom(Step(b, a), p, q)
            == if a.Put? && a.p == p && a.q == q then []
               else if a.Snapshot? && a.p == p && StateOf(b, p).Idle? then Snapped(b, a, q)
               else PendingFrom(b, p, q)
  {
    match a {
      case Put(p', q') =>
        var s := StateOf(b, p');
        if s.Putting? && q' in s.todo {
          assert s.todo <= b.history.Keys;
          assert q in s.todo - {q'} <==> q in s.todo && q != q';
          assert p' == p ==> StateOf(Step(b, a), p) == AfterPuts(s.item, s.todo - {q'});
        }
      case Subscribe(_) =>
      case Unsubscribe(_) =>
      case Snapshot(_, _) =>
    }
  }

  /** The part of a snapshot that counts for publisher p. */
  function SnappedBy(b: Bus, a: Action, p: PublisherId, q: QueueId): seq<Item> {
    if a.Snapshot? && a.p == p then Snapped(b, a, q) else []
  }

  lemma StepDelivery(b: Bus, a: Action, p: PublisherId, q: QueueId)
    requires WellFormed(b)
    ensures Of(p, HistoryOf(Step(b, a), q)) + PendingFrom(Step(b, a), p, q)
            == Of(p, HistoryOf(b, q)) + PendingFrom(b, p, q) + SnappedBy(b, a, p, q)
  {
    hide Step, WellFormed, Of, HistoryOf;
    StepHistory(b, a, q);
    StepPending(b, a, p, q);
    if a.Put? && a.q == q && PendingFrom(b, a.p, q) != [] {
      PendingItem(b, a.p, q);
      OfAppended(p, HistoryOf(b, q), StateOf(b, a.p).item);
    }
  }

  /** Per publisher, what q has received plus what is still owed to it is what is due, in publish order. */
  lemma {:induction false} DeliveredInOrder(actions: seq<Action>, p: PublisherId, q: QueueId)
    ensures Of(p, HistoryOf(Run(actions), q)) + PendingFrom(Run(actions), p, q) == Of(p, Due(actions, q))
  {
    if actions != [] {
      hide Step, WellFormed, HistoryOf, PendingFrom, Of;
      var init, a := actions[..|actions| - 1], actions[|actions| - 1];
      var b := Run(init);
      assert actions == init + [a];
      DueAfterStep(init, a, q);
      DeliveredInOrder(init, p, q);
      RunIsWellFormed(init);
      StepDelivery(b, a, p, q);
      if Snapped(b, a, q) == [] {
        assert Due(actions, q) == Due(init, q);
      } else {
        OfAppended(p, Due(init, q), Snapped(b, a, q)[0]);
      }
    } else {
      assert HistoryOf(EMPTY, q) == [];
    }
  }

  lemma PendingItem(b: Bus, p: PublisherId, q: QueueId)
    requires WellFormed(b) && PendingFrom(b, p, q) != []
    ensures StateOf(b, p).item.publisher == p
  {
  }

  /** Serial numbers of one publisher increase along what is due, so no event is due twice. */
  lemma {:induction false} DueIsDistinct(actions: seq<Action>, q: QueueId)
    ensures forall i :: 0 <= i < |Due(actions, q)| ==> Due(actions, q)[i].serial < NextSerial(Run(actions), Due(actions, q)[i].publisher)
    ensures forall i, j :: 0 <= i < j < |Due(actions, q)| && Due(actions, q)[i].publisher == Due(actions, q)[j].publisher ==>
              Due(actions, q)[i].serial < Due(actions, q)[j].serial
  {
    if actions != [] {
      DueIsDistinct(actions[..|actions| - 1], q);
      RunIsWellFormed(actions[..|actions| - 1]);
      assert forall p :: NextSerial(Run(actions[..|actions| - 1]), p) <= NextSerial(Run(actions), p);
    }
  }

  /** Each queue's history together with its pending puts holds, exactly once each, the events that are due to it. */
  lemma {:induction false} DeliveredExactlyOnce(actions: seq<Action>, q: QueueId, i: Item)
    ensures multiset(HistoryOf(Run(actions), q))[i] + (if PendingTo(Run(actions), i, q) then 1 else 0) == multiset(Due(actions, q))[i]
    ensures multiset(Due(actions, q))[i] <= 1
  {
    DueIsDistinct(actions, q);
    AtMostOnce(Due(actions, q), i);
    CountsAgree(actions, q, i);
  }

  lemma {:induction false} AtMostOnce(items: seq<Item>, i: Item)
    requires forall j, k :: 0 <= j < k < |items| ==> items[j] != items[k]
    ensures multiset(items)[i] <= 1
  {
    if items != [] {
      var init := items[..|items| - 1];
      AtMostOnce(init, i);
      assert items == init + [items[|items| - 1]];
      if items[|items| - 1] == i {
        assert i !in init;
        assert i !in multiset(init);
      }
    }
  }

  /** A step moves a put from pending to delivered, or makes one pending; it loses and doubles none. */
  lemma StepCounts(b: Bus, a: Action, q: QueueId, i: Item)
    requires WellFormed(b)
    ensures multiset(HistoryOf(Step(b, a), q))[i] + (if PendingTo(Step(b, a), i, q) then 1 else 0)
            == multiset(HistoryOf(b, q))[i] + (if PendingTo(b, i, q) then 1 else 0) + multiset(Snapped(b, a, q))[i]
  {
    hide Step, WellFormed, HistoryOf;
    StepHistory(b, a, q);
    StepPending(b, a, i.publisher, q);
    if a.Put? && a.q == q && PendingFrom(b, a.p, q) != [] {
      PendingItem(b, a.p, q);
      assert multiset(HistoryOf(Step(b, a), q)) == multiset(HistoryOf(b, q)) + multiset(PendingFrom(b, a.p, q));
    }
  }

  lemma {:induction false} CountsAgree(actions: seq<Action>, q: QueueId, i: Item)
    ensures multiset(HistoryOf(Run(actions), q))[i] + (if PendingTo(Run(actions), i, q) then 1 else 0) == multiset(Due(actions, q))[i]
  {
    if actions != [] {
      hide Step, WellFormed, Due, InForce, HistoryOf, PendingTo, Snapped;
      var init, a := actions[..|actions| - 1], actions[|actions| - 1];
      assert actions == init + [a];
      CountsAgree(init, q, i);
      RunIsWellFormed(init);
      StepCounts(Run(init), a, q, i);
      DueAfterStep(init, a, q);
      assert multiset(Due(actions, q)) == multiset(Due(init, q)) + multiset(Snapped(Run(init), a, q));
    }
  }

  // ----- every put is made -----

  /** A pending put can always be made: it delivers the event at the end of the queue, and is then no longer pending. */
  lemma PutDelivers(actions: seq<Action>, p: PublisherId, q: QueueId, i: Item)
    requires PendingFrom(Run(actions), p, q) == [i]
    ensures HistoryOf(Run(actions + [Put(p, q)]), q) == HistoryOf(Run(actions), q) + [i]
    ensures PendingFrom(Run(actions + [Put(p, q)]), p, q) == []
  {
    assert (actions + [Put(p, q)])[..|actions|] == actions;
    RunIsWellFormed(actions);
    StepHistory(Run(actions), Put(p, q), q);
    StepPending(Run(actions), Put(p, q), p, q);
  }

  /** A publisher is busy only while some put is pending; so once its puts are made it publishes again, and each of its
      subscribed queues has received exactly what is due, in publish order. */
  lemma IdlePublisherHasDelivered(actions: seq<Action>, p: PublisherId, q: QueueId)
    ensures StateOf(Run(actions), p).Putting? <==> exists r :: PendingFrom(Run(actions), p, r) != []
    ensures StateOf(Run(actions), p).Idle? ==> Of(p, HistoryOf(Run(actions), q)) == Of(p, Due(actions, q))
  {
    RunIsWellFormed(actions);
    var s := StateOf(Run(actions), p);
    if s.Putting? {
      var r :| r in s.todo;
      assert PendingFrom(Run(actions), p, r) == [s.item];
    }
    DeliveredInOrder(actions, p, q);
  }

  // ----- the bus itself, one call at a time -----

  class Queue {
    var items: seq<Event>

    constructor ()
      ensures items == []
    {
      items := [];
    }

    method Put(e: Event)
      modifies this
      ensures items == old(items) + [e]
    {
      items := items + [e];
    }
  }

  class EventBus {
    var subscribers: set<Queue>

    constructor ()
      ensures subscribers == {}
    {
      subscribers := {};
    }

    method Subscribe() returns (q: Queue)
      modifies this
      ensures fresh(q) && q.items == [] && subscribers == old(subscribers) + {q}
    {
      q := new Queue();
      subscribers := subscribers + {q};
    }

    /** Removing a queue that is not subscribed is no error. */
    method Unsubscribe(q: Queue)
      modifies this
      ensures subscribers == old(subscribers) - {q}
    {
      subscribers := subscribers - {q};
    }

    /** Every current subscriber gets the event once. */
    method Publish(e: Event)
      modifies subscribers
      ensures forall q :: q in subscribers ==> q.items == old(q.items) + [e]
    {
      var todo := subscribers;
      while todo != {}
        invariant todo <= subscribers
        invariant forall q :: q in subscribers ==> q.items == if q in todo then old(q.items) else old(q.items) + [e]
        decreases todo
      {
        var q :| q in todo;
        q.Put(e);
        todo := todo - {q};
      }
    }
  }
}
