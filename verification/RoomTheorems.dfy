/** The waiting room over every step: what is always kept, what only under a condition, and exactly which
    orders are lost. */
module RoomTheorems {
  import opened Common
  import opened Sequences
  import opened Orders
  import opened Inventory
  import opened Machine
  import opened WaitingRoom

  /** A caller that may see this order. */
  predicate MaySee(s: State, o: OrderId, user: Option<UserId>) {
    o < |s.orders| && (user.Some? ==> s.orders[o].user == user.value)
  }

  /** The active order asks for its own status after its lease is over in whole seconds but not yet
      past `expires_at`: the query cancels it and then puts it back. */
  predicate LastSecondQuery(s: State, step: Step, now: Time) {
    && step.DoStatus? && MaySee(s, step.order, step.user)
    && IsPending(s.orders, step.order)
    && now <= s.orders[step.order].expiresAt
    && QueueOf(s, s.orders[step.order].event).active == Some(step.order)
    && LeaseOver(QueueOf(s, s.orders[step.order].event), now)
  }

  predicate LastSecondAt(s: State, step: Step, e: EventId, now: Time) {
    LastSecondQuery(s, step, now) && s.orders[step.order].event == e
  }

  /** A `CreateOrder` that gets as far as the queue. */
  predicate Enters(s: State, step: Step, now: Time) {
    step.DoCreate? && Create(s, step.request, step.fault, now).1.Success?
    && Replay(s, step.request.key).None?
  }

  // The state in which a request that owns its key has been admitted, before it is queued.
  function Admitted(s: State, req: Request, now: Time): State {
    Admit(SetToken(s, req.key, Processing), req, now)
  }

  lemma EntersCase(s: State, req: Request, fault: Fault, now: Time)
    requires Enters(s, DoCreate(req, fault), now)
    ensures Create(s, req, fault, now)
            == (Enqueue(Admitted(s, req, now), |s.orders|, req.event, now), Success(|s.orders|))
    ensures fault.NoFault? && Objection(s.stock, req.ticketType, now).None?
    ensures Reserve(s.stock, req.ticketType, req.quantity, now).1.Reserved?
  {
  }

  lemma RefusedCase(s: State, req: Request, fault: Fault, now: Time)
    requires !Enters(s, DoCreate(req, fault), now)
    ensures var s' := Create(s, req, fault, now).0;
            && s'.queues == s.queues && s'.tickets == s.tickets
            && (s'.orders == s.orders || s'.orders == s.orders + [NewOrder(req, Cancelled, [], now)])
  {
    if !HasOpenOrder(s, req.user, req.event, now) && Replay(s, req.key).None? {
      OwnedRefused(SetToken(s, req.key, Processing), req, fault, now);
    }
  }

  lemma OwnedRefused(s: State, req: Request, fault: Fault, now: Time)
    requires CreateOwned(s, req, fault, now).1.Failure?
    ensures var s' := CreateOwned(s, req, fault, now).0;
            && s'.queues == s.queues && s'.tickets == s.tickets
            && (s'.orders == s.orders || s'.orders == s.orders + [NewOrder(req, Cancelled, [], now)])
  {
  }

  // A new row leaves every queue as it was.
  lemma AppendKeeps(s: State, s': State)
    requires s'.queues == s.queues && s.orders <= s'.orders
    requires Shape(s)
    ensures Shape(s')
    ensures Lost(s') == Lost(s) + (set o: OrderId | |s.orders| <= o < |s'.orders| && s'.orders[o].status.Pending?)
  {
    forall e: EventId ensures QueueOk(s'.orders, QueueOf(s', e), e) {
      assert QueueOk(s.orders, QueueOf(s, e), e);
    }
    forall o: OrderId | |s.orders| <= o < |s'.orders|
      ensures !InQueue(QueueOf(s', s'.orders[o].event), o)
    {
      assert QueueOk(s.orders, QueueOf(s, s'.orders[o].event), s'.orders[o].event);
    }
  }

  // A new PENDING row is queued: only a timeout on the way can lose an order.
  lemma NewcomerKeeps(s: State, s1: State, order: Order, now: Time)
    requires Shape(s) && s1.queues == s.queues && s1.orders == s.orders + [order] && order.status.Pending?
    ensures var r, q := Enqueue(s1, |s.orders|, order.event, now), QueueOf(s, order.event);
            && Shape(r)
            && Lost(r) == Lost(s) + (if TimedOut(q, now) then Displaced(s, order.event, q.active.value) else {})
  {
    var e, q := order.event, QueueOf(s, order.event);
    AppendKeeps(s, s1);
    assert QueueOk(s.orders, q, e);
    EnqueueOk(s1, |s.orders|, e, now);
    FirstPendingSame(s.orders, s1.orders, q.waiting);
    assert |s.orders| !in Lost(s);
  }

  lemma CreateKeeps(s: State, req: Request, fault: Fault, now: Time)
    requires Shape(s)
    ensures Shape(Create(s, req, fault, now).0)
    ensures Lost(Create(s, req, fault, now).0) == Lost(s) + Dropped(s, DoCreate(req, fault), now)
  {
    if Enters(s, DoCreate(req, fault), now) {
      EntersCase(s, req, fault, now);
      NewcomerKeeps(s, Admitted(s, req, now), Admitted(s, req, now).orders[|s.orders|], now);
    } else {
      RefusedCase(s, req, fault, now);
      AppendKeeps(s, Create(s, req, fault, now).0);
    }
  }

  lemma MarkPaidKeeps(s: State, o: OrderId)
    requires Shape(s) && o < |s.orders|
    ensures var s1, e := MarkPaid(s, o), s.orders[o].event;
            && ListOk(s1.orders, QueueOf(s1, e).waiting, e) && OthersOk(s1, e)
            && Lost(s1) == Lost(s) - {o}
  {
    var s1, e := MarkPaid(s, o), s.orders[o].event;
    assert QueueOk(s.orders, QueueOf(s, e), e);
    forall f: EventId | f != e ensures QueueOk(s1.orders, QueueOf(s1, f), f) {
      OtherEvent(s.orders, s1.orders, QueueOf(s, f), f);
    }
  }

  // What a payment leaves: the order is PAID with its tickets, and the slot passes on.
  lemma PayShape(s: State, o: OrderId, now: Time)
    requires Shape(s) && o < |s.orders| && !s.orders[o].status.Paid?
    ensures var r, e := Pay(s, o, now), s.orders[o].event;
            && SameButExpiry(s.orders[o := s.orders[o].(status := Paid)], r.orders)
            && (forall f :: f != e ==> QueueOf(r, f) == QueueOf(s, f))
            && (forall x :: x in QueueOf(r, e).waiting ==> x in QueueOf(s, e).waiting)
            && SlotPending(r, e)
            && r.stock == s.stock && r.tokens == s.tokens
            && r.tickets == s.tickets + TicketsFor(o, s.orders[o].items)
  {
    assert QueueOk(s.orders, QueueOf(s, s.orders[o].event), s.orders[o].event);
    AdvanceShape(MarkPaid(s, o), s.orders[o].event, now);
  }

  lemma PayKeeps(s: State, o: OrderId, now: Time)
    requires Shape(s)
    ensures Shape(Pay(s, o, now))
    ensures Lost(Pay(s, o, now)) == Lost(s) - Found(s, DoPay(o), now) + Dropped(s, DoPay(o), now)
  {
    if o < |s.orders| && !s.orders[o].status.Paid? {
      var e := s.orders[o].event;
      MarkPaidKeeps(s, o);
      assert QueueOk(s.orders, QueueOf(s, e), e);
      AdvanceOk(MarkPaid(s, o), e, now);
      AdvanceLoses(MarkPaid(s, o), e, now);
    } else {
      assert o !in Lost(s);
    }
  }

  lemma {:induction false} SweepKeeps(s: State, snapshot: seq<OrderId>, now: Time)
    requires Shape(s)
    ensures Shape(Sweep(s, snapshot, now))
    ensures Lost(Sweep(s, snapshot, now)) == Lost(s) - (set o | o in snapshot)
    decreases |snapshot|
  {
    if snapshot != [] {
      CancelOk(s, snapshot[0], now);
      CancelLoses(s, snapshot[0], now);
      SweepKeeps(Cancel(s, snapshot[0], now), snapshot[1..], now);
    }
  }

  lemma UserCancelKeeps(s: State, o: OrderId, user: Option<UserId>, now: Time)
    requires Shape(s)
    ensures Shape(UserCancel(s, o, user, now).0)
    ensures MaySee(s, o, user) && !s.orders[o].status.Paid? ==>
              QueueView(UserCancel(s, o, user, now).0, Cancel(s, o, now))
    ensures Lost(UserCancel(s, o, user, now).0) == Lost(s) - Found(s, DoUserCancel(o, user), now)
  {
    if MaySee(s, o, user) && !s.orders[o].status.Paid? {
      var e := s.orders[o].event;
      var s1 := Cancel(s, o, now);
      CancelOk(s, o, now);
      CancelShape(s, o, now);
      CancelLoses(s, o, now);
      assert QueueOk(s1.orders, QueueOf(s1, e), e);
      WithoutAbsent(QueueOf(s1, e).waiting, o);
      var r := UserCancel(s, o, user, now).0;
      forall f: EventId ensures QueueOf(r, f) == QueueOf(s1, f) && QueueOk(r.orders, QueueOf(r, f), f) {
        assert QueueOk(s1.orders, QueueOf(s1, f), f);
      }
      assert Lost(r) == Lost(s1);
    }
  }

  // Two states that differ in no table and in no queue.
  ghost predicate QueueView(s: State, s': State) {
    && s'.orders == s.orders && s'.stock == s.stock && s'.tickets == s.tickets && s'.tokens == s.tokens
    && forall e: EventId :: QueueOf(s', e) == QueueOf(s, e)
  }

  lemma {:induction false} WithoutAbsent(w: seq<nat>, x: nat)
    requires x !in w
    ensures Without(w, x) == w
  {
    if w != [] { WithoutAbsent(w[1..], x); }
  }

  lemma CheckActiveKeeps(s: State, e: EventId, now: Time)
    requires Shape(s)
    ensures Shape(CheckActive(s, e, now))
    ensures Lost(CheckActive(s, e, now)) == Lost(s) + CheckDrops(s, e, now)
  {
    var q := QueueOf(s, e);
    assert QueueOk(s.orders, q, e);
    if LeaseOver(q, now) {
      TimeOutOk(s, e, q.active.value, now);
      TimeOutLoses(s, q.active.value, now);
    }
  }

  // What the room looks like when a status query comes to place the asking order.
  lemma BeforePlace(s: State, o: OrderId, user: Option<UserId>, now: Time)
    requires Shape(s) && IsPending(s.orders, o) && MaySee(s, o, user)
    requires now <= s.orders[o].expiresAt
    ensures var e := s.orders[o].event;
            var s1 := CheckActive(s, e, now);
            && Shape(s1) && |s1.orders| == |s.orders| && s1.orders[o].event == e
            && !LeaseOver(QueueOf(s1, e), now)
            && (LastSecondQuery(s, DoStatus(o, user), now) <==> s1.orders[o].status.Cancelled?)
            && (!LastSecondQuery(s, DoStatus(o, user), now) ==> IsPending(s1.orders, o))
            && (s1.orders[o].status.Cancelled? ==> !InQueue(QueueOf(s1, e), o))
  {
    var e := s.orders[o].event;
    var q := QueueOf(s, e);
    assert QueueOk(s.orders, q, e);
    CheckActiveKeeps(s, e, now);
    if LeaseOver(q, now) {
      TimeOutShape(s, q.active.value, now);
      FreshAfterTimeOut(s, e, q.active.value, now);
    }
  }

  lemma FreshAfterTimeOut(s: State, e: EventId, o: OrderId, now: Time)
    requires Shape(s)
    ensures !LeaseOver(QueueOf(TimeOut(s, e, o, now), e), now)
  {
    var mid := Cancel(s, o, now);
    CancelOk(s, o, now);
    assert QueueOk(mid.orders, QueueOf(mid, e), e);
    AdvanceShape(mid, e, now);
    UnixShift(now, 180);
  }

  lemma PlaceKeeps(s: State, e: EventId, o: OrderId, now: Time)
    requires Shape(s) && o < |s.orders| && s.orders[o].event == e && !LeaseOver(QueueOf(s, e), now)
    requires IsPending(s.orders, o) || (IsCancelled(s.orders, o) && !InQueue(QueueOf(s, e), o))
    ensures Shape(Place(s, e, o, now).0)
    ensures Lost(Place(s, e, o, now).0) == Lost(s) - {o}
  {
    assert QueueOk(s.orders, QueueOf(s, e), e);
    AdmitFinds(s, o, e, now);
    if InQueue(QueueOf(s, e), o) {
      assert Place(s, e, o, now).0 == s && o !in Lost(s);
    } else if QueueOf(s, e).active.None? {
      PromoteOk(s, o, e, now);
    } else {
      PushOk(s, o, e, now);
    }
  }

  lemma OwnTimeOutKeeps(s: State, o: OrderId, now: Time)
    requires Shape(s) && o < |s.orders|
    ensures var e := s.orders[o].event;
            && Shape(TimeOut(s, e, o, now))
            && Lost(TimeOut(s, e, o, now)) == Lost(s) - {o} + Displaced(s, e, o)
  {
    TimeOutOk(s, s.orders[o].event, o, now);
    TimeOutLoses(s, o, now);
  }

  lemma StatusKeeps(s: State, o: OrderId, user: Option<UserId>, now: Time)
    requires Shape(s)
    ensures Shape(AskStatus(s, o, user, now).0)
    ensures Lost(AskStatus(s, o, user, now).0) ==
            Lost(s) - Found(s, DoStatus(o, user), now) + Dropped(s, DoStatus(o, user), now)
  {
    if MaySee(s, o, user) && IsPending(s.orders, o) {
      var e := s.orders[o].event;
      if now > s.orders[o].expiresAt {
        OwnTimeOutKeeps(s, o, now);
      } else {
        CheckActiveKeeps(s, e, now);
        BeforePlace(s, o, user, now);
        PlaceKeeps(CheckActive(s, e, now), e, o, now);
      }
    } else {
      assert AskStatus(s, o, user, now).0 == s;
      assert o !in Lost(s) || !MaySee(s, o, user);
    }
  }

  // ---- the main results ----

  /** Every step keeps every queue in shape, last-second queries included. */
  lemma ShapeKept(s: State, step: Step, now: Time)
    requires Shape(s)
    ensures Shape(Apply(s, step, now))
  {
    match step
    case DoCreate(req, fault) => CreateKeeps(s, req, fault, now);
    case DoPay(o) => PayKeeps(s, o, now);
    case DoCancel(o) => CancelOk(s, o, now);
    case DoUserCancel(o, user) => UserCancelKeeps(s, o, user, now);
    case DoStatus(o, user) => StatusKeeps(s, o, user, now);
    case DoPaymentTurn(o, user) => if o < |s.orders| { CheckActiveKeeps(s, s.orders[o].event, now); }
    case DoSweep(snapshot) => SweepKeeps(s, snapshot, now);
    case DoOrganize(_) => AppendKeeps(s, Apply(s, step, now));
  }

  // A queue stays live if nobody joins it, nobody in it is cancelled, and who becomes active is PENDING.
  lemma StaysLive(s: State, s': State, e: EventId)
    requires Shape(s) && LiveAt(s, e) && |s.orders| <= |s'.orders|
    requires forall x: OrderId :: InQueue(QueueOf(s', e), x) ==>
               InQueue(QueueOf(s, e), x) && x < |s.orders| && s'.orders[x].status == s.orders[x].status
    requires QueueOf(s', e).active == QueueOf(s, e).active || SlotPending(s', e)
    requires forall x :: x in QueueOf(s', e).waiting ==> x in QueueOf(s, e).waiting
    ensures LiveAt(s', e)
  {
  }

  lemma CancelLive(s: State, o: OrderId, e: EventId, now: Time)
    requires Shape(s) && LiveAt(s, e)
    ensures LiveAt(Cancel(s, o, now), e)
  {
    if o < |s.orders| {
      CancelShape(s, o, now);
      assert QueueOk(s.orders, QueueOf(s, e), e);
      StaysLive(s, Cancel(s, o, now), e);
    }
  }

  lemma TimeOutLive(s: State, o: OrderId, e: EventId, now: Time)
    requires Shape(s) && o < |s.orders| && LiveAt(s, e)
    ensures LiveAt(TimeOut(s, s.orders[o].event, o, now), e)
  {
    TimeOutShape(s, o, now);
    assert QueueOk(s.orders, QueueOf(s, e), e);
    StaysLive(s, TimeOut(s, s.orders[o].event, o, now), e);
  }

  lemma {:induction false} SweepLive(s: State, snapshot: seq<OrderId>, e: EventId, now: Time)
    requires Shape(s) && LiveAt(s, e)
    ensures LiveAt(Sweep(s, snapshot, now), e)
    decreases |snapshot|
  {
    if snapshot != [] {
      CancelOk(s, snapshot[0], now);
      CancelLive(s, snapshot[0], e, now);
      SweepLive(Cancel(s, snapshot[0], now), snapshot[1..], e, now);
    }
  }

  lemma CheckActiveLive(s: State, f: EventId, e: EventId, now: Time)
    requires Shape(s) && LiveAt(s, e)
    ensures LiveAt(CheckActive(s, f, now), e)
  {
    var q := QueueOf(s, f);
    assert QueueOk(s.orders, q, f);
    if LeaseOver(q, now) { TimeOutLive(s, q.active.value, e, now); }
  }

  lemma PayLive(s: State, o: OrderId, e: EventId, now: Time)
    requires Shape(s) && LiveAt(s, e)
    ensures LiveAt(Pay(s, o, now), e)
  {
    if o < |s.orders| && !s.orders[o].status.Paid? {
      PayShape(s, o, now);
      assert QueueOk(s.orders, QueueOf(s, e), e);
    }
  }

  lemma AdmitLive(s: State, o: OrderId, f: EventId, e: EventId, now: Time)
    requires Shape(s) && LiveAt(s, e) && IsPending(s.orders, o)
    ensures LiveAt(Promote(s, f, o, now), e) && LiveAt(Push(s, f, o, now), e)
  {
    assert QueueOk(s.orders, QueueOf(s, e), e);
  }

  lemma EnqueueLive(s: State, o: OrderId, f: EventId, e: EventId, now: Time)
    requires Shape(s) && LiveAt(s, e) && IsPending(s.orders, o) && !InQueue(QueueOf(s, f), o)
    ensures LiveAt(Enqueue(s, o, f, now), e)
  {
    var q := QueueOf(s, f);
    EnqueueCases(s, o, f, now);
    assert QueueOk(s.orders, q, f);
    if TimedOut(q, now) {
      TimeOutOk(s, f, q.active.value, now);
      TimeOutLive(s, q.active.value, e, now);
      TimeOutShape(s, q.active.value, now);
      AdmitLive(TimeOut(s, f, q.active.value, now), o, f, e, now);
    } else {
      AdmitLive(s, o, f, e, now);
    }
  }

  lemma AppendLive(s: State, s': State, e: EventId)
    requires Shape(s) && LiveAt(s, e) && s'.queues == s.queues && s.orders <= s'.orders
    ensures LiveAt(s', e)
  {
    assert QueueOk(s.orders, QueueOf(s, e), e);
  }

  lemma CreateLive(s: State, req: Request, fault: Fault, e: EventId, now: Time)
    requires Shape(s) && LiveAt(s, e)
    ensures LiveAt(Create(s, req, fault, now).0, e)
  {
    if Enters(s, DoCreate(req, fault), now) {
      var s1 := Admitted(s, req, now);
      EntersCase(s, req, fault, now);
      AppendKeeps(s, s1);
      AppendLive(s, s1, e);
      assert QueueOk(s.orders, QueueOf(s, req.event), req.event);
      EnqueueLive(s1, |s.orders|, req.event, e, now);
    } else {
      RefusedCase(s, req, fault, now);
      AppendLive(s, Create(s, req, fault, now).0, e);
    }
  }

  lemma StatusLiveIff(s: State, o: OrderId, user: Option<UserId>, e: EventId, now: Time)
    requires Shape(s) && LiveAt(s, e)
    ensures LiveAt(AskStatus(s, o, user, now).0, e) <==> !LastSecondAt(s, DoStatus(o, user), e, now)
  {
    if MaySee(s, o, user) && IsPending(s.orders, o) {
      var f := s.orders[o].event;
      if now > s.orders[o].expiresAt {
        TimeOutLive(s, o, e, now);
      } else {
        CheckActiveLive(s, f, e, now);
        BeforePlace(s, o, user, now);
        PlaceLiveIff(CheckActive(s, f, now), f, o, e, now);
      }
    }
  }

  lemma PlaceLiveIff(s: State, f: EventId, o: OrderId, e: EventId, now: Time)
    requires Shape(s) && LiveAt(s, e) && o < |s.orders| && s.orders[o].event == f && !LeaseOver(QueueOf(s, f), now)
    requires IsPending(s.orders, o) || (IsCancelled(s.orders, o) && !InQueue(QueueOf(s, f), o))
    ensures LiveAt(Place(s, f, o, now).0, e) <==> e != f || IsPending(s.orders, o)
  {
    assert QueueOk(s.orders, QueueOf(s, f), f);
    if IsPending(s.orders, o) {
      AdmitLive(s, o, f, e, now);
    } else {
      var r := Place(s, f, o, now).0;
      assert IsCancelled(r.orders, o) && InQueue(QueueOf(r, f), o);
    }
  }

  lemma UserCancelLive(s: State, o: OrderId, user: Option<UserId>, e: EventId, now: Time)
    requires Shape(s) && LiveAt(s, e)
    ensures LiveAt(UserCancel(s, o, user, now).0, e)
  {
    UserCancelKeeps(s, o, user, now);
    CancelLive(s, o, e, now);
  }

  lemma TurnLive(s: State, o: OrderId, user: Option<UserId>, e: EventId, now: Time)
    requires Shape(s) && LiveAt(s, e)
    ensures LiveAt(PaymentTurn(s, o, user, now).0, e)
  {
    if o < |s.orders| { CheckActiveLive(s, s.orders[o].event, e, now); }
  }

  // Every step but a status query.
  lemma OtherStepLive(s: State, step: Step, e: EventId, now: Time)
    requires Shape(s) && LiveAt(s, e) && !step.DoStatus?
    ensures LiveAt(Apply(s, step, now), e)
  {
    match step
    case DoCreate(req, fault) => CreateLive(s, req, fault, e, now);
    case DoPay(o) => PayLive(s, o, e, now);
    case DoCancel(o) => CancelLive(s, o, e, now);
    case DoUserCancel(o, user) => UserCancelLive(s, o, user, e, now);
    case DoPaymentTurn(o, user) => TurnLive(s, o, user, e, now);
    case DoSweep(snapshot) => SweepLive(s, snapshot, e, now);
    case DoOrganize(_) => AppendLive(s, Apply(s, step, now), e);
  }

  /** A queue that holds only orders that can be served goes on doing so across a step if and only if the
      step is not a last-second query on that event. */
  lemma LiveKeptIff(s: State, step: Step, e: EventId, now: Time)
    requires Shape(s) && LiveAt(s, e)
    ensures LiveAt(Apply(s, step, now), e) <==> !LastSecondAt(s, step, e, now)
  {
    if step.DoStatus? { StatusLiveIff(s, step.order, step.user, e, now); } else { OtherStepLive(s, step, e, now); }
  }

  /** Every step keeps the whole invariant, except a status query by the active order in the last second of
      its lease, which always breaks it. */
  lemma RoomKeptIff(s: State, step: Step, now: Time)
    requires RoomOk(s)
    ensures RoomOk(Apply(s, step, now)) <==> !LastSecondQuery(s, step, now)
  {
    ShapeKept(s, step, now);
    forall e: EventId { LiveKeptIff(s, step, e, now); }
    if LastSecondQuery(s, step, now) {
      assert !LiveAt(Apply(s, step, now), s.orders[step.order].event);
    }
  }

  function CheckDrops(s: State, e: EventId, now: Time): set<OrderId> {
    var q := QueueOf(s, e);
    if LeaseOver(q, now) then Displaced(s, e, q.active.value) else {}
  }

  /** The PENDING order that a step throws out of the room, if any. */
  function Dropped(s: State, step: Step, now: Time): set<OrderId> {
    match step
    case DoCreate(req, fault) =>
      var q := QueueOf(s, req.event);
      if Enters(s, step, now) && TimedOut(q, now) then Displaced(s, req.event, q.active.value) else {}
    case DoPay(o) =>
      if o < |s.orders| && !s.orders[o].status.Paid? then
        var active := QueueOf(s, s.orders[o].event).active;
        if active.Some? && active.value != o && IsPending(s.orders, active.value) then {active.value} else {}
      else {}
    case DoStatus(o, user) =>
      if !MaySee(s, o, user) || !IsPending(s.orders, o) then {}
      else if now > s.orders[o].expiresAt then Displaced(s, s.orders[o].event, o)
      else CheckDrops(s, s.orders[o].event, now) - {o}
    case DoPaymentTurn(o, user) =>
      if MaySee(s, o, user) && IsPending(s.orders, o) then CheckDrops(s, s.orders[o].event, now) else {}
    case _ => {}
  }

  /** The orders that a step settles or puts back in a queue. */
  function Found(s: State, step: Step, now: Time): set<OrderId> {
    match step
    case DoPay(o) => {o}
    case DoCancel(o) => {o}
    case DoUserCancel(o, user) => if MaySee(s, o, user) then {o} else {}
    case DoStatus(o, user) => if MaySee(s, o, user) then {o} else {}
    case DoSweep(snapshot) => set o | o in snapshot
    case _ => {}
  }

  /** Exactly which PENDING orders are in no queue after a step. */
  lemma LostAfter(s: State, step: Step, now: Time)
    requires Shape(s)
    ensures Lost(Apply(s, step, now)) == Lost(s) - Found(s, step, now) + Dropped(s, step, now)
  {
    match step
    case DoCreate(req, fault) => CreateKeeps(s, req, fault, now);
    case DoPay(o) => PayKeeps(s, o, now);
    case DoCancel(o) => CancelLoses(s, o, now);
    case DoUserCancel(o, user) => UserCancelKeeps(s, o, user, now);
    case DoStatus(o, user) => StatusKeeps(s, o, user, now);
    case DoPaymentTurn(o, user) => if o < |s.orders| { CheckActiveKeeps(s, s.orders[o].event, now); }
    case DoSweep(snapshot) => SweepKeeps(s, snapshot, now);
    case DoOrganize(_) => AppendKeeps(s, Apply(s, step, now));
  }

  /** Unless the lease of the slot is over, the turn to pay is given exactly to an order that exists, to its
      owner or an internal caller, while it is PENDING, and only if it is the active order or, when the slot is
      empty, was dropped out of every queue. */
  lemma TurnIsActive(s: State, o: OrderId, user: Option<UserId>, now: Time)
    requires Shape(s) && (o < |s.orders| ==> !LeaseOver(QueueOf(s, s.orders[o].event), now))
    ensures PaymentTurn(s, o, user, now).1 <==>
            && o < |s.orders| && (user == None || user == Some(s.orders[o].user)) && s.orders[o].status == Pending
            && var active := QueueOf(s, s.orders[o].event).active;
               active == Some(o) || (active.None? && o in Lost(s))
  {
    if o < |s.orders| {
      assert QueueOk(s.orders, QueueOf(s, s.orders[o].event), s.orders[o].event);
    }
  }

  // What is left of the list behind its first PENDING order.
  function BehindNext(s: State, e: EventId): seq<OrderId> {
    var w := QueueOf(s, e).waiting;
    var k := FirstPending(s.orders, w);
    if k < |w| then w[k + 1..] else []
  }

  lemma SlotAfterAdvance(s: State, e: EventId, now: Time)
    ensures var w := QueueOf(s, e).waiting;
            var k := FirstPending(s.orders, w);
            QueueOf(Advance(s, e, now), e).active == if k < |w| then Some(w[k]) else None
  {
  }

  // A cancellation of the active order leaves the PENDING orders of the list, less the one it promotes.
  lemma BehindAfterCancel(s: State, e: EventId, now: Time)
    requires Shape(s) && QueueOf(s, e).active.Some?
    ensures var mid, rest := Cancel(s, QueueOf(s, e).active.value, now), BehindNext(s, e);
            QueueOf(mid, e).waiting == rest && FirstPending(mid.orders, rest) == FirstPending(s.orders, rest)
  {
    var q := QueueOf(s, e);
    assert QueueOk(s.orders, q, e);
    CancelSlot(s, q.active.value, now);
    CancelShape(s, q.active.value, now);
    var mid := Cancel(s, q.active.value, now);
    forall o | o in BehindNext(s, e) ensures IsPending(s.orders, o) <==> IsPending(mid.orders, o) {
      assert o in q.waiting && o != q.active.value;
    }
    FirstPendingSame(s.orders, mid.orders, BehindNext(s, e));
  }

  // Who holds the slot after the double advance of a timeout.
  lemma SlotAfterTimeOut(s: State, e: EventId, now: Time)
    requires Shape(s) && QueueOf(s, e).active.Some?
    ensures var rest, j := BehindNext(s, e), FirstPending(s.orders, BehindNext(s, e));
            QueueOf(TimeOut(s, e, QueueOf(s, e).active.value, now), e).active ==
            if j < |rest| then Some(rest[j]) else None
  {
    BehindAfterCancel(s, e, now);
    SlotAfterAdvance(Cancel(s, QueueOf(s, e).active.value, now), e, now);
  }

  /** Once it is over, the call cancels the active order and advances twice, so the turn goes to the second
      PENDING order of the list; with fewer than two, to whoever asks, the order just cancelled included. */
  lemma TurnAfterTimeOut(s: State, o: OrderId, user: Option<UserId>, now: Time)
    requires Shape(s) && MaySee(s, o, user) && IsPending(s.orders, o)
    requires LeaseOver(QueueOf(s, s.orders[o].event), now)
    ensures var rest := BehindNext(s, s.orders[o].event);
            var j := FirstPending(s.orders, rest);
            PaymentTurn(s, o, user, now).1 <==> j == |rest| || rest[j] == o
    ensures IsCancelled(PaymentTurn(s, o, user, now).0.orders, o) <==> QueueOf(s, s.orders[o].event).active == Some(o)
  {
    var e := s.orders[o].event;
    assert QueueOk(s.orders, QueueOf(s, e), e);
    SlotAfterTimeOut(s, e, now);
    TimeOutShape(s, QueueOf(s, e).active.value, now);
  }

  // ---- over whole runs ----

  /** Every run keeps every queue in shape. */
  lemma {:induction false} ShapeOverRuns(s: State, run: Run)
    requires Shape(s)
    ensures Shape(Exec(s, run))
    decreases |run|
  {
    if run != [] {
      ShapeKept(s, run[0].0, run[0].1);
      ShapeOverRuns(Apply(s, run[0].0, run[0].1), run[1..]);
    }
  }

  // No status query of the run falls in the last second of the lease of `e` that the asker holds.
  ghost predicate CalmAt(s: State, run: Run, e: EventId)
    decreases |run|
  {
    run == [] || (!LastSecondAt(s, run[0].0, e, run[0].1) && CalmAt(Apply(s, run[0].0, run[0].1), run[1..], e))
  }

  /** A queue that holds only orders that can be served goes on doing so, whatever happens at other events. */
  lemma {:induction false} LiveOverRuns(s: State, run: Run, e: EventId)
    requires Shape(s) && LiveAt(s, e) && CalmAt(s, run, e)
    ensures LiveAt(Exec(s, run), e)
    decreases |run|
  {
    if run != [] {
      ShapeKept(s, run[0].0, run[0].1);
      LiveKeptIff(s, run[0].0, e, run[0].1);
      LiveOverRuns(Apply(s, run[0].0, run[0].1), run[1..], e);
    }
  }

  // No step of the run displaces an order.
  ghost predicate Gentle(s: State, run: Run)
    decreases |run|
  {
    run == [] || (Dropped(s, run[0].0, run[0].1) == {} && Gentle(Apply(s, run[0].0, run[0].1), run[1..]))
  }

  /** On runs that displace nobody, every PENDING order stays in exactly one place: the slot or one
      position of its event's list. */
  lemma {:induction false} NoOrderLost(s: State, run: Run)
    requires Shape(s) && Lost(s) == {} && Gentle(s, run)
    ensures forall o: OrderId :: IsPending(Exec(s, run).orders, o) ==>
              InOnePlace(QueueOf(Exec(s, run), Exec(s, run).orders[o].event), o)
    decreases |run|
  {
    if run == [] {
      forall o: OrderId | IsPending(s.orders, o)
        ensures InOnePlace(QueueOf(s, s.orders[o].event), o)
      {
        assert o !in Lost(s);
        assert QueueOk(s.orders, QueueOf(s, s.orders[o].event), s.orders[o].event);
      }
    } else {
      ShapeKept(s, run[0].0, run[0].1);
      LostAfter(s, run[0].0, run[0].1);
      NoOrderLost(Apply(s, run[0].0, run[0].1), run[1..]);
    }
  }

  ghost predicate InOnePlace(q: Queue, o: OrderId) {
    (q.active == Some(o)) != (exists i :: 0 <= i < |q.waiting| && q.waiting[i] == o)
    && forall i, j :: 0 <= i < |q.waiting| && 0 <= j < |q.waiting| && q.waiting[i] == o && q.waiting[j] == o ==> i == j
  }

  /** A step empties no PENDING order out of a full room exactly when it displaces nobody. */
  lemma NothingLostIff(s: State, step: Step, now: Time)
    requires Shape(s) && Lost(s) == {}
    ensures Lost(Apply(s, step, now)) == {} <==> Dropped(s, step, now) == {}
  {
    LostAfter(s, step, now);
  }
}
