/** The expiry sweep: it walks a snapshot while its own cancellations promote other orders. */
module Sweeper {
  import opened Common
  import opened Sequences
  import opened Orders
  import opened Inventory
  import opened Machine
  import opened WaitingRoom

  // The items of every order of the snapshot, in the order of the snapshot.
  function ItemsOf(orders: seq<Order>, snapshot: seq<OrderId>): seq<Item> {
    if snapshot == [] then []
    else (if snapshot[0] < |orders| then orders[snapshot[0]].items else []) + ItemsOf(orders, snapshot[1..])
  }

  lemma {:induction false} ReleaseAllConcat(st: Stock, a: seq<Item>, b: seq<Item>)
    ensures ReleaseAll(st, a + b) == ReleaseAll(ReleaseAll(st, a), b)
    decreases |a|
  {
    if a == [] {
      assert a + b == b;
    } else {
      assert (a + b)[1..] == a[1..] + b;
      ReleaseAllConcat(Release(st, a[0].ticketType, a[0].quantity), a[1..], b);
    }
  }

  lemma {:induction false} ItemsOfSame(a: seq<Order>, b: seq<Order>, snapshot: seq<OrderId>)
    requires forall o :: o in snapshot ==> o < |a| && o < |b| && a[o].items == b[o].items
    ensures ItemsOf(a, snapshot) == ItemsOf(b, snapshot)
  {
    if snapshot != [] {
      assert forall o :: o in snapshot[1..] ==> o in snapshot;
      ItemsOfSame(a, b, snapshot[1..]);
    }
  }

  // Everything PENDING and overdue is still ahead of the loop, and everything ahead of it is PENDING.
  ghost predicate Ahead(s: State, rest: seq<OrderId>, now: Time) {
    && NoDup(rest)
    && (forall o :: o in rest ==> IsPending(s.orders, o))
    && (forall o: OrderId :: IsPending(s.orders, o) && s.orders[o].expiresAt < now ==> o in rest)
  }

  lemma CancelHead(s: State, rest: seq<OrderId>, now: Time)
    requires Shape(s) && rest != [] && Ahead(s, rest, now)
    ensures var r := Cancel(s, rest[0], now);
            Shape(r) && Ahead(r, rest[1..], now)
  {
    assert rest[0] in rest;
    CancelOk(s, rest[0], now);
    CancelShape(s, rest[0], now);
    assert forall o :: o in rest[1..] ==> o in rest && o != rest[0];
    assert forall o :: o in rest && o != rest[0] ==> o in rest[1..];
  }

  lemma {:induction false} SweepLoop(s: State, rest: seq<OrderId>, now: Time)
    requires Shape(s) && Ahead(s, rest, now)
    ensures var r := Sweep(s, rest, now);
            && Shape(r) && Ahead(r, [], now) && |r.orders| == |s.orders|
            && (forall o :: 0 <= o < |s.orders| ==>
                  && r.orders[o].items == s.orders[o].items && r.orders[o].event == s.orders[o].event
                  && r.orders[o].status == if o in rest then Cancelled else s.orders[o].status)
            && r.stock == ReleaseAll(s.stock, ItemsOf(s.orders, rest))
    decreases |rest|
  {
    if rest != [] {
      var mid := Cancel(s, rest[0], now);
      assert rest[0] in rest;
      CancelHead(s, rest, now);
      CancelShape(s, rest[0], now);
      SweepLoop(mid, rest[1..], now);
      ItemsOfSame(s.orders, mid.orders, rest[1..]);
      ReleaseAllConcat(s.stock, s.orders[rest[0]].items, ItemsOf(s.orders, rest[1..]));
    }
  }

  // Nobody joins a queue during a sweep, and what is swept leaves it.
  lemma {:induction false} SweepLeaves(s: State, rest: seq<OrderId>, e: EventId, now: Time)
    requires Shape(s) && forall o :: o in rest ==> o < |s.orders|
    ensures forall x :: InQueue(QueueOf(Sweep(s, rest, now), e), x) ==> InQueue(QueueOf(s, e), x) && x !in rest
    decreases |rest|
  {
    if rest != [] {
      var o, mid := rest[0], Cancel(s, rest[0], now);
      assert o in rest;
      CancelOk(s, o, now);
      CancelShape(s, o, now);
      assert QueueOk(s.orders, QueueOf(s, e), e);
      assert forall x :: x in rest[1..] ==> x in rest;
      SweepLeaves(mid, rest[1..], e, now);
      assert forall x :: x in rest ==> x == o || x in rest[1..];
    }
  }

  /** Every order of the snapshot is still PENDING when the loop reaches it, although the earlier
      cancellations may have promoted it. */
  lemma {:induction false} StillPendingWhenReached(s: State, rest: seq<OrderId>, i: nat, now: Time)
    requires Shape(s) && Ahead(s, rest, now) && i < |rest|
    ensures IsPending(Sweep(s, rest[..i], now).orders, rest[i])
    decreases i
  {
    if i > 0 {
      CancelHead(s, rest, now);
      assert rest[..i][1..] == rest[1..][..i - 1];
      StillPendingWhenReached(Cancel(s, rest[0], now), rest[1..], i - 1, now);
    }
  }

  /** One sweep: its orders and no others are cancelled, their stock is released once, none of them is
      left in a queue, and nothing overdue stays PENDING. */
  lemma SweepCorrect(s: State, snapshot: seq<OrderId>, now: Time)
    requires Shape(s) && IsSnapshot(s, snapshot, now)
    ensures var r := Sweep(s, snapshot, now);
            && |r.orders| == |s.orders|
            && (forall i :: 0 <= i < |snapshot| ==> IsPending(Sweep(s, snapshot[..i], now).orders, snapshot[i]))
            && (forall o :: 0 <= o < |s.orders| ==>
                  r.orders[o].status == if IsPending(s.orders, o) && s.orders[o].expiresAt < now
                                        then Cancelled else s.orders[o].status)
            && r.stock == ReleaseAll(s.stock, ItemsOf(s.orders, snapshot))
            && (forall o, e: EventId :: o in snapshot ==> !InQueue(QueueOf(r, e), o))
            && (forall o: OrderId :: IsPending(r.orders, o) ==> now <= r.orders[o].expiresAt)
  {
    var r := Sweep(s, snapshot, now);
    SweepLoop(s, snapshot, now);
    forall i | 0 <= i < |snapshot| ensures IsPending(Sweep(s, snapshot[..i], now).orders, snapshot[i]) {
      StillPendingWhenReached(s, snapshot, i, now);
    }
    forall e: EventId { SweepLeaves(s, snapshot, e, now); }
  }

  lemma HasMember(w: seq<OrderId>)
    requires w != []
    ensures exists o :: o in w
  {
    assert w[0] in w;
  }

  /** A second sweep at the same instant finds nothing and does nothing. */
  lemma SecondSweepIdle(s: State, snapshot: seq<OrderId>, again: seq<OrderId>, now: Time)
    requires Shape(s) && IsSnapshot(s, snapshot, now)
    requires IsSnapshot(Sweep(s, snapshot, now), again, now)
    ensures again == []
    ensures Sweep(Sweep(s, snapshot, now), again, now) == Sweep(s, snapshot, now)
  {
    SweepCorrect(s, snapshot, now);
    if again != [] { HasMember(again); }
  }
}
