/** The life of an order: exactly which steps settle it, and what no step ever changes of it. */
module Lifecycle {
  import opened Common
  import opened Sequences
  import opened Orders
  import opened Inventory
  import opened Machine
  import opened WaitingRoom
  import opened RoomTheorems
  import opened Sweeper
  import opened Conservation

  /** Somebody who is the order's owner, or an internal caller without a name. */
  predicate Allowed(order: Order, user: Option<UserId>) {
    user == None || user == Some(order.user)
  }

  /** An order asks for its status or for its turn to pay, and gets past the checks. */
  predicate Asks(s: State, x: OrderId, user: Option<UserId>) {
    x < |s.orders| && Allowed(s.orders[x], user) && s.orders[x].status == Pending
  }

  /** The order runs out of time in this step: in a sweep that lists it; when it asks after its time; or when it
      holds the slot and somebody of the same event arrives in a second after the last of its time, or asks in
      its last second or later. */
  predicate RunsOut(s: State, step: Step, o: OrderId, now: Time)
    requires o < |s.orders|
  {
    var order := s.orders[o];
    var active := QueueOf(s, order.event).active == Some(o);
    var second, last := now / 1_000_000, order.expiresAt / 1_000_000;
    match step
    case DoCreate(req, _) => Enters(s, step, now) && req.event == order.event && active && second > last
    case DoStatus(x, user) =>
      Asks(s, x, user)
      && if now > s.orders[x].expiresAt then o == x else s.orders[x].event == order.event && active && second >= last
    case DoPaymentTurn(x, user) =>
      Asks(s, x, user) && s.orders[x].event == order.event && active && second >= last
    case DoSweep(snapshot) => o in snapshot
    case _ => false
  }

  /** What becomes of the status of an order. */
  function StatusAfter(s: State, step: Step, o: OrderId, now: Time): Status
    requires o < |s.orders|
  {
    var order := s.orders[o];
    if step == DoPay(o) then Paid
    else if step == DoCancel(o) then Cancelled
    else if step.DoUserCancel? && step.order == o && Allowed(order, step.user) && order.status != Paid then Cancelled
    else if RunsOut(s, step, o, now) then Cancelled
    else order.status
  }

  // Of two tables, the second has these orders CANCELLED, and times may differ.
  ghost predicate Cancels(a: seq<Order>, b: seq<Order>, gone: seq<OrderId>) {
    |a| == |b| && forall o :: 0 <= o < |a| ==>
      b[o] == a[o].(expiresAt := b[o].expiresAt, status := if o in gone then Cancelled else a[o].status)
  }

  lemma TimeOutCancels(s: State, o: OrderId, now: Time)
    requires Shape(s) && o < |s.orders|
    ensures Cancels(s.orders, TimeOut(s, s.orders[o].event, o, now).orders, [o])
  {
    TimeOutShape(s, o, now);
  }

  lemma CheckActiveCancels(s: State, e: EventId, now: Time)
    requires Shape(s)
    ensures Cancels(s.orders, CheckActive(s, e, now).orders, Overdue(s, e, now))
  {
    var q := QueueOf(s, e);
    assert QueueOk(s.orders, q, e);
    if LeaseOver(q, now) { TimeOutCancels(s, q.active.value, now); }
  }

  lemma EnqueueCancels(s: State, o: OrderId, e: EventId, now: Time)
    requires Shape(s)
    ensures Cancels(s.orders, Enqueue(s, o, e, now).orders, Late(s, e, now))
  {
    var q := QueueOf(s, e);
    assert QueueOk(s.orders, q, e);
    EnqueueCases(s, o, e, now);
    if TimedOut(q, now) {
      TimeOutCancels(s, q.active.value, now);
      AdmitMoves(TimeOut(s, e, q.active.value, now), o, e, now);
    } else {
      AdmitMoves(s, o, e, now);
    }
  }

  lemma StatusCancels(s: State, x: OrderId, user: Option<UserId>, now: Time)
    requires Shape(s)
    ensures Cancels(s.orders, AskStatus(s, x, user, now).0.orders, Gone(s, DoStatus(x, user), now))
  {
    if MaySee(s, x, user) && IsPending(s.orders, x) {
      var e := s.orders[x].event;
      if now > s.orders[x].expiresAt {
        TimeOutCancels(s, x, now);
      } else {
        CheckActiveCancels(s, e, now);
        BeforePlace(s, x, user, now);
        PlaceMoves(CheckActive(s, e, now), e, x, now);
      }
    }
  }

  lemma {:induction false} SweepCancels(s: State, rest: seq<OrderId>, now: Time)
    requires Shape(s) && forall o :: o in rest ==> o < |s.orders|
    ensures Cancels(s.orders, Sweep(s, rest, now).orders, rest)
    decreases |rest|
  {
    if rest != [] {
      var mid := Cancel(s, rest[0], now);
      assert rest[0] in rest;
      assert forall x :: x in rest[1..] ==> x in rest;
      CancelOk(s, rest[0], now);
      CancelShape(s, rest[0], now);
      SweepCancels(mid, rest[1..], now);
      assert forall x :: x in rest ==> x == rest[0] || x in rest[1..];
    }
  }

  // In shape, the lease in Redis is the order's own last second.
  lemma SlotSeconds(s: State, o: OrderId, now: Time)
    requires Shape(s) && o < |s.orders|
    ensures var e := s.orders[o].event;
            var active := QueueOf(s, e).active == Some(o);
            && (o in Overdue(s, e, now) <==> active && now / 1_000_000 >= s.orders[o].expiresAt / 1_000_000)
            && (o in Late(s, e, now) <==> active && now / 1_000_000 > s.orders[o].expiresAt / 1_000_000)
    ensures forall f: EventId :: f != s.orders[o].event ==> o !in Overdue(s, f, now) && o !in Late(s, f, now)
  {
    var e := s.orders[o].event;
    assert QueueOk(s.orders, QueueOf(s, e), e);
    forall f: EventId | f != e ensures o !in Overdue(s, f, now) && o !in Late(s, f, now) {
      assert QueueOk(s.orders, QueueOf(s, f), f);
    }
  }

  lemma CreateLife(s: State, req: Request, fault: Fault, o: OrderId, now: Time)
    requires Shape(s) && o < |s.orders|
    ensures var s' := Create(s, req, fault, now).0;
            |s.orders| <= |s'.orders|
            && s'.orders[o] == s.orders[o].(expiresAt := s'.orders[o].expiresAt,
                                            status := StatusAfter(s, DoCreate(req, fault), o, now))
  {
    if Enters(s, DoCreate(req, fault), now) {
      var s1 := Admitted(s, req, now);
      EntersCase(s, req, fault, now);
      AppendKeeps(s, s1);
      EnqueueCancels(s1, |s.orders|, req.event, now);
      SlotSeconds(s, o, now);
      assert Late(s1, req.event, now) == Late(s, req.event, now);
    } else {
      RefusedCase(s, req, fault, now);
    }
  }

  lemma StatusLife(s: State, x: OrderId, user: Option<UserId>, o: OrderId, now: Time)
    requires Shape(s) && o < |s.orders|
    ensures var step, s' := DoStatus(x, user), AskStatus(s, x, user, now).0;
            |s.orders| <= |s'.orders|
            && s'.orders[o] == s.orders[o].(expiresAt := s'.orders[o].expiresAt, status := StatusAfter(s, step, o, now))
  {
    SlotSeconds(s, o, now);
    StatusCancels(s, x, user, now);
  }

  lemma TurnLife(s: State, x: OrderId, user: Option<UserId>, o: OrderId, now: Time)
    requires Shape(s) && o < |s.orders|
    ensures var step, s' := DoPaymentTurn(x, user), PaymentTurn(s, x, user, now).0;
            |s.orders| <= |s'.orders|
            && s'.orders[o] == s.orders[o].(expiresAt := s'.orders[o].expiresAt, status := StatusAfter(s, step, o, now))
  {
    if Asks(s, x, user) {
      SlotSeconds(s, o, now);
      CheckActiveCancels(s, s.orders[x].event, now);
      assert o in Overdue(s, s.orders[x].event, now) <==> RunsOut(s, DoPaymentTurn(x, user), o, now);
    }
  }

  lemma SettleLife(s: State, step: Step, o: OrderId, now: Time)
    requires Shape(s) && o < |s.orders| && (step.DoPay? || step.DoCancel? || step.DoUserCancel?)
    ensures var s' := Apply(s, step, now);
            |s.orders| <= |s'.orders|
            && s'.orders[o] == s.orders[o].(expiresAt := s'.orders[o].expiresAt, status := StatusAfter(s, step, o, now))
  {
    var x := step.order;
    if x < |s.orders| {
      if step.DoPay? {
        if !s.orders[x].status.Paid? { PayShape(s, x, now); }
      } else {
        CancelShape(s, x, now);
        if step.DoUserCancel? { UserCancelKeeps(s, x, step.user, now); }
      }
    }
  }

  /** Exactly what a step does to an order that was there before: its status changes as `StatusAfter` says, its
      time as it may, and its user, event and items never. */
  lemma LifeAfter(s: State, step: Step, o: OrderId, now: Time)
    requires Shape(s) && o < |s.orders| && Enabled(s, step, now)
    ensures var s' := Apply(s, step, now);
            |s.orders| <= |s'.orders|
            && s'.orders[o] == s.orders[o].(expiresAt := s'.orders[o].expiresAt, status := StatusAfter(s, step, o, now))
  {
    match step
    case DoCreate(req, fault) => CreateLife(s, req, fault, o, now);
    case DoStatus(x, user) => StatusLife(s, x, user, o, now);
    case DoPaymentTurn(x, user) => TurnLife(s, x, user, o, now);
    case DoSweep(snapshot) => SweepCancels(s, snapshot, now);
    case DoOrganize(_) =>
    case _ => SettleLife(s, step, o, now);
  }
}
