/** First come, first served: who is ahead of a waiting order, and for how long. */
module Fairness {
  import opened Common
  import opened Sequences
  import opened Orders
  import opened Machine
  import opened WaitingRoom
  import opened RoomTheorems

  /** The line in front of a waiting order: the active order, then the entries before it in the list. */
  function Ahead(q: Queue, a: OrderId): seq<OrderId> {
    (if q.active.Some? then [q.active.value] else []) + Before(q.waiting, a)
  }

  predicate Waits(s: State, e: EventId, a: OrderId) {
    a in QueueOf(s, e).waiting
  }

  // When the database says the lease of the active order ends.
  function LeaseEnd(s: State, e: EventId): Time {
    var active := QueueOf(s, e).active;
    if active.Some? && active.value < |s.orders| then s.orders[active.value].expiresAt else 0
  }

  // Whoever holds the slot afterwards either held it with the same lease or was leased it just now.
  predicate LeaseKept(s: State, s': State, e: EventId, now: Time) {
    var a, a' := QueueOf(s, e).active, QueueOf(s', e).active;
    a'.Some? ==> LeaseEnd(s', e) == if a' == a then LeaseEnd(s, e) else now + LEASE
  }

  // Weaker: the holder may be the same with a new lease.
  predicate LeasedNow(s: State, s': State, e: EventId, now: Time) {
    var a, a' := QueueOf(s, e).active, QueueOf(s', e).active;
    a'.Some? ==> LeaseEnd(s', e) == now + LEASE || (a' == a && LeaseEnd(s', e) == LeaseEnd(s, e))
  }

  // A change that only takes orders out of the list: nobody joins, and every line shrinks in order.
  ghost predicate Moves(s: State, s': State, e: EventId, now: Time) {
    var q, q' := QueueOf(s, e), QueueOf(s', e);
    && LeaseKept(s, s', e, now)
    && (q'.active.Some? && q'.active != q.active ==> q'.active.value in q.waiting)
    && forall a :: a in q'.waiting ==> a in q.waiting && Subseq(Ahead(q', a), Ahead(q, a))
  }

  // What `Moves` needs of the room; a step may be half done.
  ghost predicate Shaped(s: State) {
    forall e: EventId :: ShapeOf(s.orders, QueueOf(s, e), e)
  }

  ghost predicate ShapeOf(orders: seq<Order>, q: Queue, e: EventId) {
    && ListOk(orders, q.waiting, e)
    && (q.active.Some? ==> var a := q.active.value;
                           a < |orders| && orders[a].event == e && a !in q.waiting)
    && (q.active.None? ==> q.waiting == [])
  }

  lemma RoomShaped(s: State)
    requires Shape(s)
    ensures Shaped(s)
  {
  }

  lemma StillMoves(s: State, s': State, e: EventId, now: Time)
    requires Shaped(s)
    requires QueueOf(s', e) == QueueOf(s, e) && LeaseEnd(s', e) == LeaseEnd(s, e)
    ensures Moves(s, s', e, now)
  {
    forall a | a in QueueOf(s, e).waiting ensures Subseq(Ahead(QueueOf(s', e), a), Ahead(QueueOf(s, e), a)) {
      SubseqRefl(Ahead(QueueOf(s, e), a));
    }
  }

  lemma MovesTrans(s: State, mid: State, s': State, e: EventId, now: Time)
    requires Shaped(s) && Moves(s, mid, e, now) && Moves(mid, s', e, now)
    ensures Moves(s, s', e, now)
  {
    var q, p, q' := QueueOf(s, e), QueueOf(mid, e), QueueOf(s', e);
    assert ShapeOf(s.orders, q, e);
    forall a | a in q'.waiting ensures a in q.waiting && Subseq(Ahead(q', a), Ahead(q, a)) {
      assert a in p.waiting;
      SubseqTrans(Ahead(q', a), Ahead(p, a), Ahead(q, a));
    }
  }

  lemma AdvanceMoves(s: State, f: EventId, e: EventId, now: Time)
    requires Shaped(s)
    ensures Moves(s, Advance(s, f, now), e, now)
  {
    var q, r := QueueOf(s, e), Advance(s, f, now);
    assert ShapeOf(s.orders, q, e) && ShapeOf(s.orders, QueueOf(s, f), f);
    AdvanceShape(s, f, now);
    if f != e {
      StillMoves(s, r, e, now);
    } else {
      var w, k := q.waiting, FirstPending(s.orders, q.waiting);
      if k < |w| {
        forall a | a in w[k + 1..] ensures Subseq(Ahead(QueueOf(r, e), a), Ahead(q, a)) {
          LineAfterPops(q, k, a);
        }
      }
    }
  }

  lemma NotBefore(w: seq<OrderId>, k: nat, a: OrderId)
    requires NoDup(w) && k <= |w| && a in w[k..]
    ensures a !in w[..k]
  {
  }

  // Popping `k` dead entries and promoting the next one shortens every line behind it.
  lemma LineAfterPops(q: Queue, k: nat, a: OrderId)
    requires NoDup(q.waiting) && k < |q.waiting| && a in q.waiting[k + 1..] && q.active.Some?
    ensures Subseq([q.waiting[k]] + Before(q.waiting[k + 1..], a), Ahead(q, a))
  {
    var w := q.waiting;
    NotBefore(w, k + 1, a);
    BeforeDrop(w, a, k + 1);
    PoppedRun(w, k);
    CutLine(q.active.value, w[..k], w[k], Before(w[k + 1..], a), w[..k + 1]);
    assert Ahead(q, a) == [q.active.value] + (w[..k + 1] + Before(w[k + 1..], a));
  }

  lemma PoppedRun(w: seq<OrderId>, k: nat)
    requires k < |w|
    ensures w[..k + 1] == w[..k] + [w[k]]
  {
  }

  lemma CutLine(active: OrderId, dead: seq<OrderId>, next: OrderId, rest: seq<OrderId>, popped: seq<OrderId>)
    requires popped == dead + [next]
    ensures Subseq([next] + rest, [active] + (popped + rest))
  {
    SubseqSuffix([active] + dead, [next] + rest);
    assert ([active] + dead) + ([next] + rest) == [active] + (popped + rest);
  }

  lemma CancelMoves(s: State, o: OrderId, e: EventId, now: Time)
    requires Shape(s)
    ensures Moves(s, Cancel(s, o, now), e, now)
  {
    RoomShaped(s);
    if o >= |s.orders| {
      StillMoves(s, s, e, now);
    } else {
      var f := s.orders[o].event;
      var s1 := MarkCancelled(s, o);
      var r := Cancel(s, o, now);
      assert QueueOk(s.orders, QueueOf(s, f), f) && QueueOk(s.orders, QueueOf(s, e), e);
      if QueueOf(s, f).active == Some(o) {
        forall g: EventId ensures ShapeOf(s1.orders, QueueOf(s1, g), g) {
          assert QueueOk(s.orders, QueueOf(s, g), g);
        }
        AdvanceMoves(s1, f, e, now);
        assert LeaseEnd(s1, e) == LeaseEnd(s, e);
      } else if e != f {
        StillMoves(s, r, e, now);
      } else {
        forall a | a in QueueOf(r, e).waiting
          ensures Subseq(Ahead(QueueOf(r, e), a), Ahead(QueueOf(s, e), a))
        {
          LineWithout(QueueOf(s, e), o, a);
        }
      }
    }
  }

  lemma LineWithout(q: Queue, o: OrderId, a: OrderId)
    requires a != o && q.active.Some?
    ensures Subseq(Ahead(q.(waiting := Without(q.waiting, o)), a), Ahead(q, a))
  {
    BeforeWithout(q.waiting, a, o);
    SubseqWithout(Before(q.waiting, a), o);
    var u, v := [q.active.value] + Without(Before(q.waiting, a), o), Ahead(q, a);
    assert u[1..] == Without(Before(q.waiting, a), o) && v[1..] == Before(q.waiting, a);
  }

  lemma TimeOutMoves(s: State, f: EventId, o: OrderId, e: EventId, now: Time)
    requires Shape(s)
    ensures Moves(s, TimeOut(s, f, o, now), e, now)
  {
    var mid := Cancel(s, o, now);
    CancelOk(s, o, now);
    CancelMoves(s, o, e, now);
    RoomShaped(s);
    RoomShaped(mid);
    AdvanceMoves(mid, f, e, now);
    MovesTrans(s, mid, TimeOut(s, f, o, now), e, now);
  }

  lemma {:induction false} SweepMoves(s: State, snapshot: seq<OrderId>, e: EventId, now: Time)
    requires Shape(s)
    ensures Moves(s, Sweep(s, snapshot, now), e, now)
    decreases |snapshot|
  {
    RoomShaped(s);
    if snapshot == [] {
      StillMoves(s, s, e, now);
    } else {
      var mid := Cancel(s, snapshot[0], now);
      CancelOk(s, snapshot[0], now);
      CancelMoves(s, snapshot[0], e, now);
      SweepMoves(mid, snapshot[1..], e, now);
      MovesTrans(s, mid, Sweep(s, snapshot, now), e, now);
    }
  }

  // ---- one step ----

  /** What a step does for an order that goes on waiting: its line shrinks in order, and a change of the
      active order comes with a lease that starts now. */
  ghost predicate Served(s: State, s': State, e: EventId, a: OrderId, now: Time) {
    Waits(s', e, a) ==> LeaseKept(s, s', e, now) && Subseq(Ahead(QueueOf(s', e), a), Ahead(QueueOf(s, e), a))
  }

  // An order from outside takes the free slot, or goes to the back of the list.
  lemma AdmitServes(s: State, s1: State, o: OrderId, f: EventId, e: EventId, a: OrderId, now: Time)
    requires Shape(s) && Shape(s1) && Moves(s, s1, e, now) && Outside(s1, o, f) && a != o && Waits(s, e, a)
    ensures var r := if QueueOf(s1, f).active.None? then Promote(s1, f, o, now) else Push(s1, f, o, now);
            Served(s, r, e, a, now)
  {
    var p := QueueOf(s1, e);
    assert QueueOk(s1.orders, p, e);
    if QueueOf(s1, f).active.Some? && f == e && a in p.waiting {
      BeforeAppend(p.waiting, a, [o]);
    }
  }

  // The same without an order that waits: only the lease matters.
  lemma AdmitLeases(s: State, s1: State, o: OrderId, f: EventId, e: EventId, now: Time)
    requires Shape(s1) && LeaseKept(s, s1, e, now) && Outside(s1, o, f)
    ensures var r := if QueueOf(s1, f).active.None? then Promote(s1, f, o, now) else Push(s1, f, o, now);
            LeasedNow(s, r, e, now)
  {
  }

  // An order from outside is enqueued, after a timeout if the slot's lease ran out.
  lemma EnqueueServes(s: State, o: OrderId, f: EventId, e: EventId, a: OrderId, now: Time)
    requires Shape(s) && Outside(s, o, f) && a != o
    ensures LeasedNow(s, Enqueue(s, o, f, now), e, now)
    ensures Waits(s, e, a) ==> Served(s, Enqueue(s, o, f, now), e, a, now)
  {
    var q := QueueOf(s, f);
    EnqueueCases(s, o, f, now);
    assert QueueOk(s.orders, q, f) && QueueOk(s.orders, QueueOf(s, e), e);
    var s2 := s;
    if TimedOut(q, now) {
      s2 := TimeOut(s, f, q.active.value, now);
      TimeOutOk(s, f, q.active.value, now);
      TimeOutShape(s, q.active.value, now);
      TimeOutMoves(s, f, q.active.value, e, now);
    } else {
      RoomShaped(s);
      StillMoves(s, s, e, now);
    }
    AdmitLeases(s, s2, o, f, e, now);
    if Waits(s, e, a) { AdmitServes(s, s2, o, f, e, a, now); }
  }

  // A new order is in the table and in no queue; the queues and their leases are as before.
  lemma AdmittedOutside(s: State, req: Request, e: EventId, now: Time)
    requires Shape(s)
    ensures var s1 := Admitted(s, req, now);
            && Shape(s1) && Outside(s1, |s.orders|, req.event)
            && QueueOf(s1, e) == QueueOf(s, e) && LeaseEnd(s1, e) == LeaseEnd(s, e)
            && |s.orders| !in QueueOf(s, e).waiting
  {
    AppendKeeps(s, Admitted(s, req, now));
    assert QueueOk(s.orders, QueueOf(s, e), e) && QueueOk(s.orders, QueueOf(s, req.event), req.event);
  }

  lemma CreateServes(s: State, req: Request, fault: Fault, e: EventId, a: OrderId, now: Time)
    requires Shape(s)
    ensures LeasedNow(s, Create(s, req, fault, now).0, e, now)
    ensures Waits(s, e, a) ==> Served(s, Create(s, req, fault, now).0, e, a, now)
  {
    if Enters(s, DoCreate(req, fault), now) {
      EntersCase(s, req, fault, now);
      AdmittedOutside(s, req, e, now);
      EnqueueServes(Admitted(s, req, now), |s.orders|, req.event, e, if Waits(s, e, a) then a else |s.orders| + 1, now);
    } else {
      RefusedCase(s, req, fault, now);
      assert QueueOk(s.orders, QueueOf(s, e), e);
      RoomShaped(s);
      StillMoves(s, Create(s, req, fault, now).0, e, now);
    }
  }

  lemma PayMoves(s: State, o: OrderId, e: EventId, now: Time)
    requires Shape(s)
    ensures Moves(s, Pay(s, o, now), e, now)
  {
    RoomShaped(s);
    if o >= |s.orders| || s.orders[o].status.Paid? {
      StillMoves(s, s, e, now);
    } else {
      var s1 := MarkPaid(s, o);
      forall g: EventId ensures ShapeOf(s1.orders, QueueOf(s1, g), g) {
        assert QueueOk(s.orders, QueueOf(s, g), g);
      }
      assert QueueOk(s.orders, QueueOf(s, e), e);
      AdvanceMoves(s1, s.orders[o].event, e, now);
      assert LeaseEnd(s1, e) == LeaseEnd(s, e);
    }
  }

  lemma CheckActiveMoves(s: State, f: EventId, e: EventId, now: Time)
    requires Shape(s)
    ensures Moves(s, CheckActive(s, f, now), e, now)
  {
    var q := QueueOf(s, f);
    assert QueueOk(s.orders, q, f);
    RoomShaped(s);
    if LeaseOver(q, now) { TimeOutMoves(s, f, q.active.value, e, now); } else { StillMoves(s, s, e, now); }
  }

  /** The waiting order asks for its own status while the active lease is over and it is next in line: it is
      promoted, displaced by the second advance, and sent to the back of the list. */
  predicate SentBack(s: State, step: Step, e: EventId, a: OrderId, now: Time) {
    var q := QueueOf(s, e);
    var k := FirstPending(s.orders, q.waiting);
    && step.DoStatus? && step.order == a && MaySee(s, a, step.user) && s.orders[a].event == e
    && now <= s.orders[a].expiresAt
    && LeaseOver(q, now) && k < |q.waiting| && q.waiting[k] == a
  }

  // A waiting order that its own query finds in no queue any more is sent back.
  lemma OnlySentBack(s: State, o: OrderId, user: Option<UserId>, now: Time)
    requires Shape(s) && MaySee(s, o, user) && IsPending(s.orders, o) && now <= s.orders[o].expiresAt
    requires var e := s.orders[o].event;
             Waits(s, e, o) && !InQueue(QueueOf(CheckActive(s, e, now), e), o)
    ensures SentBack(s, DoStatus(o, user), s.orders[o].event, o, now)
  {
    var e := s.orders[o].event;
    assert QueueOk(s.orders, QueueOf(s, e), e);
    CheckActiveKeeps(s, e, now);
    BeforePlace(s, o, user, now);
    assert o !in Lost(s) && o in Lost(CheckActive(s, e, now));
  }

  // The second half of a status query, after changes that only took orders out of the lists.
  lemma PlaceServes(s: State, s1: State, f: EventId, o: OrderId, e: EventId, a: OrderId, now: Time)
    requires Shape(s) && Shape(s1) && Moves(s, s1, e, now) && !LeaseOver(QueueOf(s1, f), now)
    requires o < |s1.orders| && s1.orders[o].event == f && !s1.orders[o].status.Paid?
    ensures LeasedNow(s, Place(s1, f, o, now).0, e, now)
    ensures Waits(s, e, a) && (a == o ==> InQueue(QueueOf(s1, f), o)) ==> Served(s, Place(s1, f, o, now).0, e, a, now)
  {
    assert QueueOk(s1.orders, QueueOf(s1, f), f);
    if !InQueue(QueueOf(s1, f), o) {
      AdmitLeases(s, s1, o, f, e, now);
      if Waits(s, e, a) && a != o { AdmitServes(s, s1, o, f, e, a, now); }
    }
  }

  lemma StatusServes(s: State, o: OrderId, user: Option<UserId>, e: EventId, a: OrderId, now: Time)
    requires Shape(s)
    ensures LeasedNow(s, AskStatus(s, o, user, now).0, e, now)
    ensures Waits(s, e, a) && !SentBack(s, DoStatus(o, user), e, a, now) ==>
              Served(s, AskStatus(s, o, user, now).0, e, a, now)
  {
    if !MaySee(s, o, user) || !IsPending(s.orders, o) {
      RoomShaped(s);
      StillMoves(s, s, e, now);
    } else if now > s.orders[o].expiresAt {
      TimeOutMoves(s, s.orders[o].event, o, e, now);
    } else {
      var f := s.orders[o].event;
      CheckActiveMoves(s, f, e, now);
      BeforePlace(s, o, user, now);
      assert QueueOk(s.orders, QueueOf(s, e), e);
      if Waits(s, e, a) && a == o && !InQueue(QueueOf(CheckActive(s, f, now), f), o) {
        OnlySentBack(s, o, user, now);
      }
      PlaceServes(s, CheckActive(s, f, now), f, o, e, a, now);
    }
  }

  /** Every step, for every event: a lease that is new starts now; and for every waiting order that is not
      sent back, nobody from behind gets ahead, last-second queries included. */
  lemma StepServes(s: State, step: Step, e: EventId, a: OrderId, now: Time)
    requires Shape(s)
    ensures LeasedNow(s, Apply(s, step, now), e, now)
    ensures Waits(s, e, a) && !SentBack(s, step, e, a, now) ==> Served(s, Apply(s, step, now), e, a, now)
  {
    RoomShaped(s);
    match step
    case DoCreate(req, fault) => CreateServes(s, req, fault, e, a, now);
    case DoPay(o) => PayMoves(s, o, e, now);
    case DoCancel(o) => CancelMoves(s, o, e, now);
    case DoUserCancel(o, user) => UserCancelServes(s, o, user, e, now);
    case DoStatus(o, user) => StatusServes(s, o, user, e, a, now);
    case DoPaymentTurn(o, user) =>
      StillMoves(s, s, e, now);
      if o < |s.orders| { CheckActiveMoves(s, s.orders[o].event, e, now); }
    case DoSweep(snapshot) => SweepMoves(s, snapshot, e, now);
    case DoOrganize(_) => StillMoves(s, Apply(s, step, now), e, now);
  }

  lemma UserCancelServes(s: State, o: OrderId, user: Option<UserId>, e: EventId, now: Time)
    requires Shape(s)
    ensures Moves(s, UserCancel(s, o, user, now).0, e, now)
  {
    RoomShaped(s);
    if MaySee(s, o, user) && !s.orders[o].status.Paid? {
      UserCancelKeeps(s, o, user, now);
      CancelMoves(s, o, e, now);
    } else {
      StillMoves(s, s, e, now);
    }
  }

  /** No overtaking, exactly: across any step an order that keeps waiting keeps its line, shrunk and in
      order, if and only if the step does not send it back. */
  lemma NoOvertakingIff(s: State, step: Step, e: EventId, a: OrderId, now: Time)
    requires Shape(s)
    requires Waits(s, e, a) && Waits(Apply(s, step, now), e, a)
    ensures Subseq(Ahead(QueueOf(Apply(s, step, now), e), a), Ahead(QueueOf(s, e), a))
            <==> !SentBack(s, step, e, a, now)
  {
    StepServes(s, step, e, a, now);
    if SentBack(s, step, e, a, now) {
      SentBackBehind(s, step, e, a, now);
    }
  }

  // The line of an order that was next in line holds nobody from behind it.
  lemma LineOfNext(q: Queue, k: nat, y: OrderId)
    requires NoDup(q.waiting) && k < |q.waiting| && y in q.waiting[k + 1..]
    requires q.active.Some? && q.active.value !in q.waiting
    ensures y !in Ahead(q, q.waiting[k])
  {
  }

  lemma SentBackPushed(s: State, step: Step, e: EventId, a: OrderId, now: Time)
    requires Shape(s) && SentBack(s, step, e, a, now)
    ensures var q, p := QueueOf(s, e), QueueOf(CheckActive(s, e, now), e);
            Waits(Apply(s, step, now), e, a) ==>
              && p.active.Some? && p.active.value in q.waiting[FirstPending(s.orders, q.waiting) + 1..]
              && QueueOf(Apply(s, step, now), e) == p.(waiting := p.waiting + [a])
  {
    NextIsDisplaced(s, e, a, now);
    QueryPlaces(s, a, step.user, now);
    if Waits(Apply(s, step, now), e, a) { PlacePushes(CheckActive(s, e, now), e, a, now); }
  }

  lemma QueryPlaces(s: State, o: OrderId, user: Option<UserId>, now: Time)
    requires MaySee(s, o, user) && IsPending(s.orders, o) && now <= s.orders[o].expiresAt
    ensures AskStatus(s, o, user, now) == Place(CheckActive(s, s.orders[o].event, now), s.orders[o].event, o, now)
  {
  }

  lemma PlacePushes(s: State, e: EventId, o: OrderId, now: Time)
    requires !InQueue(QueueOf(s, e), o)
    requires QueueOf(s, e).active.None? ==> QueueOf(s, e).waiting == []
    requires Waits(Place(s, e, o, now).0, e, o)
    ensures QueueOf(s, e).active.Some?
    ensures QueueOf(Place(s, e, o, now).0, e) == QueueOf(s, e).(waiting := QueueOf(s, e).waiting + [o])
  {
  }

  lemma SentBackBehind(s: State, step: Step, e: EventId, a: OrderId, now: Time)
    requires Shape(s) && SentBack(s, step, e, a, now)
    ensures var q' := QueueOf(Apply(s, step, now), e);
            a in q'.waiting ==> !Subseq(Ahead(q', a), Ahead(QueueOf(s, e), a))
  {
    var q := QueueOf(s, e);
    assert QueueOk(s.orders, q, e);
    if Waits(Apply(s, step, now), e, a) {
      SentBackPushed(s, step, e, a, now);
      var line, line' := Ahead(q, a), Ahead(QueueOf(Apply(s, step, now), e), a);
      LineOfNext(q, FirstPending(s.orders, q.waiting), line'[0]);
      if Subseq(line', line) { SubseqLength(line', line); }
    }
  }

  // The order next in line is promoted by the first advance and displaced by the second.
  lemma NextIsDisplaced(s: State, e: EventId, a: OrderId, now: Time)
    requires Shape(s)
    requires var q := QueueOf(s, e);
             var k := FirstPending(s.orders, q.waiting);
             LeaseOver(q, now) && k < |q.waiting| && q.waiting[k] == a
    ensures var q, p := QueueOf(s, e), QueueOf(CheckActive(s, e, now), e);
            var k := FirstPending(s.orders, q.waiting);
            && a in q.waiting && IsPending(s.orders, a) && !InQueue(p, a)
            && (p.active.Some? ==> p.active.value in q.waiting[k + 1..])
            && (p.active.None? ==> p.waiting == [])
  {
    var q := QueueOf(s, e);
    assert QueueOk(s.orders, q, e);
    var k := FirstPending(s.orders, q.waiting);
    var mid := Cancel(s, q.active.value, now);
    CancelOk(s, q.active.value, now);
    CancelSlot(s, q.active.value, now);
    assert QueueOk(mid.orders, QueueOf(mid, e), e);
    AdvanceShape(mid, e, now);
    assert a !in q.waiting[k + 1..];
  }

  /** What an answer claims about the order and its event once it is given: EXPIRED means cancelled and out
      of the queue, ACTIVE the slot and the seconds left of its lease, WAITING the place after everyone ahead. */
  predicate Truthful(s: State, answer: QueueStatus, o: OrderId, e: EventId, now: Time)
    requires o < |s.orders|
  {
    var q := QueueOf(s, e);
    match answer
    case Completed => s.orders[o].status.Paid?
    case WasCancelled => s.orders[o].status.Cancelled?
    case Expired => s.orders[o].status.Cancelled? && !InQueue(q, o)
    case Active(left) => IsPending(s.orders, o) && q.active == Some(o) && left > 0 && q.lease == Unix(now) + left
    case Waiting(position) => IsPending(s.orders, o) && Waits(s, e, o) && position == |Ahead(q, o)| + 1
  }

  /** Whoever may see an order gets an answer, and it is true once it is given if and only if the query is not
      a last-second one. */
  lemma StatusTrueIff(s: State, o: OrderId, user: Option<UserId>, now: Time)
    requires Shape(s)
    ensures AskStatus(s, o, user, now).1.Success? <==> MaySee(s, o, user)
    ensures var (s', r) := AskStatus(s, o, user, now);
            if r.Failure? then s' == s
            else && |s'.orders| == |s.orders|
                 && (Truthful(s', r.value, o, s.orders[o].event, now) <==> !LastSecondQuery(s, DoStatus(o, user), now))
  {
    if MaySee(s, o, user) && IsPending(s.orders, o) {
      var e := s.orders[o].event;
      assert QueueOk(s.orders, QueueOf(s, e), e);
      if now > s.orders[o].expiresAt {
        TimeOutShape(s, o, now);
      } else {
        BeforePlace(s, o, user, now);
        PlaceTrueIff(CheckActive(s, e, now), e, o, now);
      }
    }
  }

  lemma PlaceTrueIff(s: State, e: EventId, o: OrderId, now: Time)
    requires Shape(s) && o < |s.orders| && s.orders[o].event == e && !LeaseOver(QueueOf(s, e), now)
    requires IsPending(s.orders, o) || (IsCancelled(s.orders, o) && !InQueue(QueueOf(s, e), o))
    ensures var (s', r) := Place(s, e, o, now);
            && r.Success? && (r.value.Active? || r.value.Waiting?) && |s'.orders| == |s.orders|
            && (Truthful(s', r.value, o, e, now) <==> IsPending(s.orders, o))
  {
    var q := QueueOf(s, e);
    assert QueueOk(s.orders, q, e);
    UnixShift(now, 180);
    if q.active.Some? && !InQueue(q, o) { LastInLine(q.waiting, o); }
  }

  lemma {:induction false} LastInLine(w: seq<OrderId>, o: OrderId)
    requires o !in w
    ensures Before(w + [o], o) == w
  {
    if w != [] {
      assert (w + [o])[1..] == w[1..] + [o];
      LastInLine(w[1..], o);
    }
  }
}
