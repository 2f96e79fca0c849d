/** What every step keeps of the waiting room, and which orders a step drops out of it. */
module WaitingRoom {
  import opened Common
  import opened Sequences
  import opened Orders
  import opened Machine

  ghost predicate ListOk(orders: seq<Order>, w: seq<OrderId>, e: EventId) {
    NoDup(w) && forall o: OrderId :: o in w ==> o < |orders| && orders[o].event == e
  }

  ghost predicate SlotOk(orders: seq<Order>, q: Queue, e: EventId) {
    if q.active.None? then q.lease == 0 && q.waiting == []
    else
      var a := q.active.value;
      && a < |orders| && orders[a].event == e && !orders[a].status.Paid?
      && q.lease == Unix(orders[a].expiresAt) && q.lease > 0
      && a !in q.waiting
  }

  ghost predicate QueueOk(orders: seq<Order>, q: Queue, e: EventId) {
    ListOk(orders, q.waiting, e) && SlotOk(orders, q, e)
  }

  /** The shape of every queue: the active order is of this event, is not PAID and does not also wait; its
      lease is the same in Redis and in the database; nobody waits twice or for another event; an empty slot
      means an empty list. */
  ghost predicate Shape(s: State) {
    forall e: EventId :: QueueOk(s.orders, QueueOf(s, e), e)
  }

  predicate SlotPending(s: State, e: EventId) {
    var q := QueueOf(s, e);
    q.active.Some? ==> IsPending(s.orders, q.active.value)
  }

  /** The queue of one event holds only orders that can still be served: the active one is PENDING, and
      nobody waits after being cancelled. */
  ghost predicate LiveAt(s: State, e: EventId) {
    SlotPending(s, e) && forall o: OrderId :: o in QueueOf(s, e).waiting ==> !IsCancelled(s.orders, o)
  }

  /** The whole invariant of the waiting room. */
  ghost predicate RoomOk(s: State) {
    Shape(s) && forall e: EventId :: LiveAt(s, e)
  }

  ghost predicate OthersOk(s: State, e: EventId) {
    forall f: EventId :: f != e ==> QueueOk(s.orders, QueueOf(s, f), f)
  }

  predicate InQueue(q: Queue, o: OrderId) {
    q.active == Some(o) || o in q.waiting
  }

  /** The PENDING orders that are in no queue: they hold stock and nobody will promote them. */
  ghost function Lost(s: State): (lost: set<OrderId>) {
    set o: OrderId | o < |s.orders| && s.orders[o].status.Pending? && !InQueue(QueueOf(s, s.orders[o].event), o)
  }

  // Two versions of the table that differ in `expires_at` at most.
  ghost predicate SameButExpiry(a: seq<Order>, b: seq<Order>) {
    |a| == |b| && forall o :: 0 <= o < |a| ==> b[o] == a[o].(expiresAt := b[o].expiresAt)
  }

  // ---- AdvanceQueue ----

  /** What `AdvanceQueue` does to the queue: the new active order and list are cut from the old list,
      and the list that is left is a suffix of it. */
  lemma AdvanceShape(s: State, e: EventId, now: Time)
    requires NoDup(QueueOf(s, e).waiting)
    ensures var r, w := Advance(s, e, now), QueueOf(s, e).waiting;
            var k, q := FirstPending(s.orders, w), QueueOf(r, e);
            && SameButExpiry(s.orders, r.orders)
            && r == s.(orders := r.orders, queues := r.queues)
            && (forall f :: f != e ==> QueueOf(r, f) == QueueOf(s, f))
            && (k < |w| ==> && w == w[..k] + [w[k]] + q.waiting
                            && q == Queue(Some(w[k]), Unix(now + LEASE), w[k + 1..])
                            && r.orders == s.orders[w[k] := s.orders[w[k]].(expiresAt := now + LEASE)])
            && (k == |w| ==> q == EMPTY_QUEUE && r.orders == s.orders)
            && (forall o :: InQueue(q, o) ==> o in w)
            && (forall o :: o in w && !InQueue(q, o) ==> !IsPending(s.orders, o))
  {
    var r, w := Advance(s, e, now), QueueOf(s, e).waiting;
    var k := FirstPending(s.orders, w);
    if k < |w| {
      assert w == w[..k] + [w[k]] + w[k + 1..];
    }
  }

  // A queue is untouched by changes to the orders of other events.
  lemma OtherEvent(a: seq<Order>, b: seq<Order>, q: Queue, f: EventId)
    requires QueueOk(a, q, f) && |a| <= |b|
    requires forall o :: 0 <= o < |a| && a[o].event == f ==> b[o] == a[o]
    ensures QueueOk(b, q, f)
  {
  }

  lemma SuffixOk(orders: seq<Order>, w: seq<OrderId>, e: EventId, k: nat)
    requires ListOk(orders, w, e) && k < |w|
    ensures ListOk(orders, w[k + 1..], e) && w[k] !in w[k + 1..] && w[k] in w
  {
    var t := w[k + 1..];
    forall o: OrderId | o in t ensures o in w {}
  }

  lemma PromotedOk(orders: seq<Order>, w: seq<OrderId>, e: EventId, k: nat, now: Time)
    requires ListOk(orders, w, e) && k < |w| && IsPending(orders, w[k])
    ensures QueueOk(orders[w[k] := orders[w[k]].(expiresAt := now + LEASE)],
                    Queue(Some(w[k]), Unix(now + LEASE), w[k + 1..]), e)
  {
    SuffixOk(orders, w, e, k);
    UnixShift(now, 180);
  }

  lemma AdvancedOk(s: State, e: EventId, now: Time)
    requires ListOk(s.orders, QueueOf(s, e).waiting, e)
    ensures QueueOk(Advance(s, e, now).orders, QueueOf(Advance(s, e, now), e), e)
  {
    var w := QueueOf(s, e).waiting;
    var k := FirstPending(s.orders, w);
    AdvanceShape(s, e, now);
    if k < |w| { PromotedOk(s.orders, w, e, k, now); }
  }

  /** `AdvanceQueue` only needs a sound list: whatever the slot held, afterwards the queues are in shape. */
  lemma AdvanceOk(s: State, e: EventId, now: Time)
    requires ListOk(s.orders, QueueOf(s, e).waiting, e) && OthersOk(s, e)
    ensures Shape(Advance(s, e, now))
  {
    var w, r := QueueOf(s, e).waiting, Advance(s, e, now);
    AdvanceShape(s, e, now);
    AdvancedOk(s, e, now);
    var k := FirstPending(s.orders, w);
    assert k < |w| ==> w[k] in w;
    forall f: EventId ensures QueueOk(r.orders, QueueOf(r, f), f) {
      if f != e { OtherEvent(s.orders, r.orders, QueueOf(s, f), f); }
    }
  }

  /** `AdvanceQueue` on an occupied slot drops its PENDING order out of the room, and nobody else. */
  lemma AdvanceLoses(s: State, e: EventId, now: Time)
    requires ListOk(s.orders, QueueOf(s, e).waiting, e)
    requires var a := QueueOf(s, e).active;
             a.Some? ==> a.value < |s.orders| && s.orders[a.value].event == e && a.value !in QueueOf(s, e).waiting
    ensures var a := QueueOf(s, e).active;
            Lost(Advance(s, e, now)) ==
            Lost(s) + (if a.Some? && IsPending(s.orders, a.value) then {a.value} else {})
  {
    AdvanceShape(s, e, now);
    var r := Advance(s, e, now);
    forall o: OrderId | o < |s.orders| && s.orders[o].event != e
      ensures QueueOf(r, r.orders[o].event) == QueueOf(s, s.orders[o].event)
    {
    }
  }

  // ---- CancelOrder ----

  lemma CancelOk(s: State, o: OrderId, now: Time)
    requires Shape(s)
    ensures Shape(Cancel(s, o, now))
  {
    if o < |s.orders| {
      var e := s.orders[o].event;
      var s1 := MarkCancelled(s, o);
      var q := QueueOf(s, e);
      assert QueueOk(s.orders, q, e);
      forall f: EventId | f != e ensures QueueOk(s1.orders, QueueOf(s1, f), f) {
        assert QueueOk(s.orders, QueueOf(s, f), f);
      }
      if q.active == Some(o) {
        AdvanceOk(s1, e, now);
      } else {
        WithoutNoDup(q.waiting, o);
        var r := Cancel(s, o, now);
        forall f: EventId ensures QueueOk(r.orders, QueueOf(r, f), f) {
          assert f != e ==> QueueOf(r, f) == QueueOf(s1, f);
        }
      }
    }
  }

  /** What `CancelOrder` leaves: the order is CANCELLED and in no queue, every other order keeps its
      status, and a PENDING order that was queued still is. */
  lemma CancelShape(s: State, o: OrderId, now: Time)
    requires Shape(s) && o < |s.orders|
    ensures var r, e := Cancel(s, o, now), s.orders[o].event;
            && SameButExpiry(s.orders[o := s.orders[o].(status := Cancelled)], r.orders)
            && (forall f :: f != e ==> QueueOf(r, f) == QueueOf(s, f))
            && !InQueue(QueueOf(r, e), o)
            && (forall x :: InQueue(QueueOf(r, e), x) ==> InQueue(QueueOf(s, e), x))
            && (forall x :: x in QueueOf(r, e).waiting ==> x in QueueOf(s, e).waiting)
            && (QueueOf(r, e).active == QueueOf(s, e).active || SlotPending(r, e))
            && (forall x :: 0 <= x < |s.orders| ==>
                  r.orders[x].expiresAt in {s.orders[x].expiresAt, now + LEASE})
            && r.tickets == s.tickets && r.tokens == s.tokens
            && r.stock == ReleaseAll(s.stock, s.orders[o].items)
  {
    var e := s.orders[o].event;
    assert QueueOk(s.orders, QueueOf(s, e), e);
    if QueueOf(s, e).active == Some(o) {
      AdvanceShape(MarkCancelled(s, o), e, now);
    }
  }

  lemma MarkCancelledLoses(s: State, o: OrderId)
    requires o < |s.orders|
    ensures Lost(MarkCancelled(s, o)) == Lost(s) - {o}
  {
  }

  lemma DroppingCancelledLoses(s: State, o: OrderId, e: EventId)
    requires IsCancelled(s.orders, o)
    ensures Lost(WithQueue(s, e, QueueOf(s, e).(waiting := Without(QueueOf(s, e).waiting, o)))) == Lost(s)
  {
  }

  /** `CancelOrder` loses nobody. */
  lemma CancelLoses(s: State, o: OrderId, now: Time)
    requires Shape(s)
    ensures Lost(Cancel(s, o, now)) == Lost(s) - {o}
  {
    if o < |s.orders| {
      var e, s1 := s.orders[o].event, MarkCancelled(s, o);
      assert QueueOk(s.orders, QueueOf(s, e), e);
      MarkCancelledLoses(s, o);
      if QueueOf(s, e).active == Some(o) { AdvanceLoses(s1, e, now); } else { DroppingCancelledLoses(s1, o, e); }
    }
  }

  /** After `CancelOrder` the slot is taken over by the first PENDING order of the list, if the slot was freed. */
  lemma CancelSlot(s: State, o: OrderId, now: Time)
    requires Shape(s) && o < |s.orders|
    ensures var e := s.orders[o].event;
            var q, r := QueueOf(s, e), QueueOf(Cancel(s, o, now), e);
            var k := FirstPending(s.orders, q.waiting);
            && (q.active != Some(o) ==> r == q.(waiting := Without(q.waiting, o)))
            && (q.active == Some(o) && k == |q.waiting| ==> r == EMPTY_QUEUE)
            && (q.active == Some(o) && k < |q.waiting| ==>
                  r == Queue(Some(q.waiting[k]), Unix(now + LEASE), q.waiting[k + 1..]))
  {
    var e := s.orders[o].event;
    var q := QueueOf(s, e);
    assert QueueOk(s.orders, q, e);
    if q.active == Some(o) {
      AdvanceShape(MarkCancelled(s, o), e, now);
      FirstPendingSame(s.orders, MarkCancelled(s, o).orders, q.waiting);
    }
  }

  lemma FirstPendingSame(a: seq<Order>, b: seq<Order>, w: seq<OrderId>)
    requires forall o :: o in w ==> (IsPending(a, o) <==> IsPending(b, o))
    ensures FirstPending(a, w) == FirstPending(b, w)
  {
  }

  // ---- the timeout branches: cancel, then advance once more ----

  lemma TimeOutOk(s: State, e: EventId, o: OrderId, now: Time)
    requires Shape(s)
    ensures Shape(TimeOut(s, e, o, now))
  {
    CancelOk(s, o, now);
    assert QueueOk(Cancel(s, o, now).orders, QueueOf(Cancel(s, o, now), e), e);
    AdvanceOk(Cancel(s, o, now), e, now);
  }

  // The order that the first of two advances promotes, only for the second to displace it.
  function Displaced(s: State, e: EventId, o: OrderId): set<OrderId> {
    var q := QueueOf(s, e);
    if q.active == Some(o) then
      var k := FirstPending(s.orders, q.waiting);
      if k < |q.waiting| then {q.waiting[k]} else {}
    else if q.active.Some? && IsPending(s.orders, q.active.value) then {q.active.value}
    else {}
  }

  /** A timeout loses exactly one order, the one promoted first, whenever there is one to promote; when the
      cancelled order was not active it is the active order that is lost, if it is PENDING. */
  lemma TimeOutLoses(s: State, o: OrderId, now: Time)
    requires Shape(s) && o < |s.orders|
    ensures Lost(TimeOut(s, s.orders[o].event, o, now)) == Lost(s) - {o} + Displaced(s, s.orders[o].event, o)
  {
    var e := s.orders[o].event;
    var mid := Cancel(s, o, now);
    CancelOk(s, o, now);
    CancelLoses(s, o, now);
    CancelSlot(s, o, now);
    assert QueueOk(s.orders, QueueOf(s, e), e);
    assert QueueOk(mid.orders, QueueOf(mid, e), e);
    AdvanceLoses(mid, e, now);
  }

  lemma TimeOutShape(s: State, o: OrderId, now: Time)
    requires Shape(s) && o < |s.orders|
    ensures var r, e := TimeOut(s, s.orders[o].event, o, now), s.orders[o].event;
            && SameButExpiry(s.orders[o := s.orders[o].(status := Cancelled)], r.orders)
            && (forall f :: f != e ==> QueueOf(r, f) == QueueOf(s, f))
            && !InQueue(QueueOf(r, e), o)
            && (forall x :: InQueue(QueueOf(r, e), x) ==> InQueue(QueueOf(s, e), x))
            && (forall x :: x in QueueOf(r, e).waiting ==> x in QueueOf(s, e).waiting)
            && SlotPending(r, e)
            && r.tickets == s.tickets && r.tokens == s.tokens
            && r.stock == ReleaseAll(s.stock, s.orders[o].items)
  {
    var e := s.orders[o].event;
    CancelOk(s, o, now);
    CancelShape(s, o, now);
    assert QueueOk(Cancel(s, o, now).orders, QueueOf(Cancel(s, o, now), e), e);
    AdvanceShape(Cancel(s, o, now), e, now);
  }

  // ---- EnqueueOrder ----

  /** An order that is not PAID and is in no queue yet. */
  predicate Outside(s: State, o: OrderId, e: EventId) {
    o < |s.orders| && !s.orders[o].status.Paid? && s.orders[o].event == e && !InQueue(QueueOf(s, e), o)
  }

  lemma PromoteOk(s: State, o: OrderId, e: EventId, now: Time)
    requires Shape(s) && Outside(s, o, e) && QueueOf(s, e).active.None?
    ensures Shape(Promote(s, e, o, now))
  {
    var r := Promote(s, e, o, now);
    forall f: EventId ensures QueueOk(r.orders, QueueOf(r, f), f) {
      assert QueueOk(s.orders, QueueOf(s, f), f);
      UnixShift(now, 180);
    }
  }

  lemma PushOk(s: State, o: OrderId, e: EventId, now: Time)
    requires Shape(s) && Outside(s, o, e) && QueueOf(s, e).active.Some?
    ensures Shape(Push(s, e, o, now))
  {
    var r := Push(s, e, o, now);
    forall f: EventId ensures QueueOk(r.orders, QueueOf(r, f), f) {
      assert QueueOk(s.orders, QueueOf(s, f), f);
    }
  }

  lemma AdmitFinds(s: State, o: OrderId, e: EventId, now: Time)
    requires o < |s.orders| && s.orders[o].event == e
    ensures Lost(Push(s, e, o, now)) == Lost(s) - {o}
    ensures QueueOf(s, e).active.None? ==> Lost(Promote(s, e, o, now)) == Lost(s) - {o}
  {
  }

  // An enqueue runs at most one timeout, because the slot is then empty or freshly leased.
  lemma EnqueueCases(s: State, o: OrderId, e: EventId, now: Time)
    ensures var q := QueueOf(s, e);
            var s1 := if TimedOut(q, now) then TimeOut(s, e, q.active.value, now) else s;
            && !TimedOut(QueueOf(s1, e), now)
            && Enqueue(s, o, e, now) == if QueueOf(s1, e).active.None? then Promote(s1, e, o, now)
                                        else Push(s1, e, o, now)
  {
  }

  lemma EnqueueOk(s: State, o: OrderId, e: EventId, now: Time)
    requires Shape(s) && Outside(s, o, e)
    ensures Shape(Enqueue(s, o, e, now))
    ensures var q := QueueOf(s, e);
            Lost(Enqueue(s, o, e, now)) ==
            Lost(s) - {o} + (if TimedOut(q, now) then Displaced(s, e, q.active.value) else {})
  {
    var q := QueueOf(s, e);
    EnqueueCases(s, o, e, now);
    assert QueueOk(s.orders, q, e);
    var s1 := s;
    if TimedOut(q, now) {
      var a := q.active.value;
      TimeOutOk(s, e, a, now);
      TimeOutLoses(s, a, now);
      TimeOutShape(s, a, now);
      s1 := TimeOut(s, e, a, now);
      assert a !in Lost(s);
      assert o !in Displaced(s, e, a);
    }
    AdmitFinds(s1, o, e, now);
    if QueueOf(s1, e).active.None? { PromoteOk(s1, o, e, now); } else { PushOk(s1, o, e, now); }
  }
}
