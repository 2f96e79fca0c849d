/** `expires_at`: which orders a step gives more time, and how much. */
module Expiry {
  import opened Common
  import opened Sequences
  import opened Orders
  import opened Machine
  import opened WaitingRoom
  import opened RoomTheorems
  import opened Fairness
  import opened BoundedWaiting

  // Nobody joins a list, and only an order that is taken out of its list is given a new time, a lease.
  ghost predicate Drains(s: State, s': State, now: Time) {
    && |s'.orders| == |s.orders|
    && (forall e: EventId, x: OrderId :: x in QueueOf(s', e).waiting ==> x in QueueOf(s, e).waiting)
    && forall o :: 0 <= o < |s.orders| ==>
         && s'.orders[o].event == s.orders[o].event
         && (s'.orders[o].expiresAt == s.orders[o].expiresAt
             || (s'.orders[o].expiresAt == now + LEASE
                 && o in QueueOf(s, s.orders[o].event).waiting && o !in QueueOf(s', s.orders[o].event).waiting))
  }

  lemma DrainsOn(s: State, mid: State, s': State, now: Time)
    requires Drains(s, mid, now) && Drains(mid, s', now)
    ensures Drains(s, s', now)
  {
  }

  lemma AdvanceDrains(s: State, e: EventId, now: Time)
    requires ListOk(s.orders, QueueOf(s, e).waiting, e)
    ensures Drains(s, Advance(s, e, now), now)
  {
    var w := QueueOf(s, e).waiting;
    var k := FirstPending(s.orders, w);
    AdvanceShape(s, e, now);
    if k < |w| { SuffixOk(s.orders, w, e, k); }
  }

  lemma MarkDrains(s: State, s1: State, s': State, now: Time)
    requires |s1.orders| == |s.orders| && s1.queues == s.queues
    requires forall o :: 0 <= o < |s.orders| ==>
               s1.orders[o].event == s.orders[o].event && s1.orders[o].expiresAt == s.orders[o].expiresAt
    requires Drains(s1, s', now)
    ensures Drains(s, s', now)
  {
  }

  lemma CancelDrains(s: State, o: OrderId, now: Time)
    requires Shape(s)
    ensures Drains(s, Cancel(s, o, now), now)
  {
    if o < |s.orders| {
      var e, s1 := s.orders[o].event, MarkCancelled(s, o);
      assert QueueOk(s.orders, QueueOf(s, e), e);
      if QueueOf(s, e).active == Some(o) {
        AdvanceDrains(s1, e, now);
        MarkDrains(s, s1, Cancel(s, o, now), now);
      }
    }
  }

  lemma TimeOutDrains(s: State, e: EventId, o: OrderId, now: Time)
    requires Shape(s)
    ensures Drains(s, TimeOut(s, e, o, now), now)
  {
    var mid := Cancel(s, o, now);
    CancelOk(s, o, now);
    CancelDrains(s, o, now);
    assert QueueOk(mid.orders, QueueOf(mid, e), e);
    AdvanceDrains(mid, e, now);
    DrainsOn(s, mid, TimeOut(s, e, o, now), now);
  }

  lemma CheckActiveDrains(s: State, e: EventId, now: Time)
    requires Shape(s)
    ensures Drains(s, CheckActive(s, e, now), now)
  {
    var q := QueueOf(s, e);
    assert QueueOk(s.orders, q, e);
    if LeaseOver(q, now) { TimeOutDrains(s, e, q.active.value, now); }
  }

  lemma PayDrains(s: State, o: OrderId, now: Time)
    requires Shape(s)
    ensures Drains(s, Pay(s, o, now), now)
  {
    if o < |s.orders| && !s.orders[o].status.Paid? {
      var e, s1 := s.orders[o].event, MarkPaid(s, o);
      assert QueueOk(s.orders, QueueOf(s, e), e);
      AdvanceDrains(s1, e, now);
      MarkDrains(s, s1, Pay(s, o, now), now);
    }
  }

  lemma {:induction false} SweepDrains(s: State, snapshot: seq<OrderId>, now: Time)
    requires Shape(s)
    ensures Drains(s, Sweep(s, snapshot, now), now)
    decreases |snapshot|
  {
    if snapshot != [] {
      var mid := Cancel(s, snapshot[0], now);
      CancelOk(s, snapshot[0], now);
      CancelDrains(s, snapshot[0], now);
      SweepDrains(mid, snapshot[1..], now);
      DrainsOn(s, mid, Sweep(s, snapshot, now), now);
    }
  }

  // ---- one step ----

  /** What becomes of the time of an order that was there before: it keeps it while it waits, unless it is sent
      back; whoever newly comes to the back of a list has two hours; whoever newly holds a slot has three
      minutes, and keeps them, unless it asks in its last second; whoever leaves every queue keeps its time, or
      a lease that was taken away at once. */
  ghost predicate TimeKept(s: State, s': State, o: OrderId, sentBack: bool, renewed: bool, now: Time)
    requires o < |s.orders| <= |s'.orders|
  {
    var e := s.orders[o].event;
    var q, q' := QueueOf(s, e), QueueOf(s', e);
    var before, after := s.orders[o].expiresAt, s'.orders[o].expiresAt;
    && (o in q.waiting && o in q'.waiting ==> after == if sentBack then now + 7_200_000_000 else before)
    && (o !in q.waiting && o in q'.waiting ==> after == now + 7_200_000_000)
    && (q'.active == Some(o) && q.active != Some(o) ==> after == now + 180_000_000)
    && (q'.active == Some(o) && q.active == Some(o) ==> after == if renewed then now + 180_000_000 else before)
    && (!InQueue(q', o) ==> after == before || (o in q.waiting && after == now + 180_000_000))
  }

  // After changes that only take orders out.
  lemma DrainedTime(s: State, s': State, o: OrderId, now: Time)
    requires Shape(s) && o < |s.orders| && Drains(s, s', now) && Moves(s, s', s.orders[o].event, now)
    ensures TimeKept(s, s', o, false, false, now)
  {
    assert QueueOk(s.orders, QueueOf(s, s.orders[o].event), s.orders[o].event);
  }

  // After such changes somebody takes the free slot or goes to the back of the list.
  lemma AdmittedTime(s: State, mid: State, x: OrderId, f: EventId, o: OrderId, now: Time)
    requires Shape(s) && o < |s.orders| && Drains(s, mid, now) && Moves(s, mid, s.orders[o].event, now)
    requires Shape(mid) && Outside(mid, x, f)
    ensures var s' := if QueueOf(mid, f).active.None? then Promote(mid, f, x, now) else Push(mid, f, x, now);
            TimeKept(s, s', o, x == o, x == o, now)
  {
    var e := s.orders[o].event;
    assert QueueOk(s.orders, QueueOf(s, e), e) && QueueOk(mid.orders, QueueOf(mid, e), e);
    DrainedTime(s, mid, o, now);
    if x != o { AdmittedOther(s, mid, x, f, o, now); }
  }

  lemma AdmittedOther(s: State, mid: State, x: OrderId, f: EventId, o: OrderId, now: Time)
    requires Shape(mid) && Outside(mid, x, f) && o < |s.orders| == |mid.orders| && x != o
    requires mid.orders[o].event == s.orders[o].event && TimeKept(s, mid, o, false, false, now)
    ensures var s' := if QueueOf(mid, f).active.None? then Promote(mid, f, x, now) else Push(mid, f, x, now);
            TimeKept(s, s', o, false, false, now)
  {
    assert QueueOk(mid.orders, QueueOf(mid, f), f);
  }

  lemma EnqueueTime(s: State, x: OrderId, f: EventId, o: OrderId, now: Time)
    requires Shape(s) && o < |s.orders| && Outside(s, x, f) && x != o
    ensures |Enqueue(s, x, f, now).orders| == |s.orders|
    ensures TimeKept(s, Enqueue(s, x, f, now), o, false, false, now)
  {
    var q := QueueOf(s, f);
    EnqueueCases(s, x, f, now);
    assert QueueOk(s.orders, q, f);
    if TimedOut(q, now) {
      var mid := TimeOut(s, f, q.active.value, now);
      TimeOutOk(s, f, q.active.value, now);
      TimeOutShape(s, q.active.value, now);
      TimeOutDrains(s, f, q.active.value, now);
      TimeOutMoves(s, f, q.active.value, s.orders[o].event, now);
      AdmittedTime(s, mid, x, f, o, now);
    } else {
      StillDrains(s, s.orders[o].event, now);
      AdmittedTime(s, s, x, f, o, now);
    }
  }

  lemma StillDrains(s: State, e: EventId, now: Time)
    requires Shape(s)
    ensures Drains(s, s, now) && Moves(s, s, e, now)
  {
    RoomShaped(s);
    StillMoves(s, s, e, now);
  }

  // The table grows by a row and the queues stay.
  lemma AppendTime(s: State, s1: State, s': State, o: OrderId, now: Time)
    requires o < |s.orders| && s.orders <= s1.orders && s1.queues == s.queues && |s1.orders| <= |s'.orders|
    requires TimeKept(s1, s', o, false, false, now)
    ensures TimeKept(s, s', o, false, false, now)
  {
  }

  lemma CreateTime(s: State, req: Request, fault: Fault, o: OrderId, now: Time)
    requires Shape(s) && o < |s.orders|
    ensures |s.orders| <= |Create(s, req, fault, now).0.orders|
    ensures TimeKept(s, Create(s, req, fault, now).0, o, false, false, now)
  {
    var s' := Create(s, req, fault, now).0;
    if Enters(s, DoCreate(req, fault), now) {
      var s1 := Admitted(s, req, now);
      EntersCase(s, req, fault, now);
      AdmittedOutside(s, req, req.event, now);
      EnqueueTime(s1, |s.orders|, req.event, o, now);
      AppendTime(s, s1, s', o, now);
    } else {
      RefusedCase(s, req, fault, now);
      StillDrains(s, s.orders[o].event, now);
      DrainedTime(s, s, o, now);
    }
  }

  lemma PlaceTime(s: State, mid: State, f: EventId, x: OrderId, o: OrderId, now: Time)
    requires Shape(s) && o < |s.orders| && Drains(s, mid, now) && Moves(s, mid, s.orders[o].event, now) && Shape(mid)
    requires x < |mid.orders| && mid.orders[x].event == f && !mid.orders[x].status.Paid?
    requires !LeaseOver(QueueOf(mid, f), now)
    ensures var admitted := x == o && !InQueue(QueueOf(mid, f), x);
            TimeKept(s, Place(mid, f, x, now).0, o, admitted, admitted, now)
  {
    assert QueueOk(mid.orders, QueueOf(mid, f), f);
    if InQueue(QueueOf(mid, f), x) { DrainedTime(s, mid, o, now); } else { AdmittedTime(s, mid, x, f, o, now); }
  }

  lemma StatusTime(s: State, x: OrderId, user: Option<UserId>, o: OrderId, now: Time)
    requires Shape(s) && o < |s.orders|
    ensures |AskStatus(s, x, user, now).0.orders| == |s.orders|
    ensures var step, e := DoStatus(x, user), s.orders[o].event;
            TimeKept(s, AskStatus(s, x, user, now).0, o,
                     SentBack(s, step, e, o, now), LastSecondAt(s, step, e, now), now)
  {
    var e := s.orders[o].event;
    assert QueueOk(s.orders, QueueOf(s, e), e);
    if MaySee(s, x, user) && IsPending(s.orders, x) {
      var f := s.orders[x].event;
      if now > s.orders[x].expiresAt {
        TimeOutDrains(s, f, x, now);
        TimeOutMoves(s, f, x, e, now);
        DrainedTime(s, TimeOut(s, f, x, now), o, now);
      } else {
        AskedTime(s, x, user, o, now);
      }
    }
  }

  // A query in time: whether the asking order is placed anew is known beforehand.
  lemma AskedTime(s: State, x: OrderId, user: Option<UserId>, o: OrderId, now: Time)
    requires Shape(s) && o < |s.orders| && MaySee(s, x, user) && IsPending(s.orders, x) && now <= s.orders[x].expiresAt
    ensures |AskStatus(s, x, user, now).0.orders| == |s.orders|
    ensures var step, e := DoStatus(x, user), s.orders[o].event;
            TimeKept(s, AskStatus(s, x, user, now).0, o,
                     SentBack(s, step, e, o, now), LastSecondAt(s, step, e, now), now)
  {
    var f, e := s.orders[x].event, s.orders[o].event;
    var mid := CheckActive(s, f, now);
    CheckActiveDrains(s, f, now);
    CheckActiveMoves(s, f, e, now);
    BeforePlace(s, x, user, now);
    PlaceTime(s, mid, f, x, o, now);
    QueryPlaces(s, x, user, now);
    assert QueueOk(s.orders, QueueOf(s, e), e);
    if x == o && Waits(s, e, o) {
      if InQueue(QueueOf(mid, f), o) { NotSentBack(s, x, user, now); } else { OnlySentBack(s, x, user, now); }
    }
  }

  lemma NotSentBack(s: State, x: OrderId, user: Option<UserId>, now: Time)
    requires Shape(s) && x < |s.orders|
    requires InQueue(QueueOf(CheckActive(s, s.orders[x].event, now), s.orders[x].event), x)
    ensures !SentBack(s, DoStatus(x, user), s.orders[x].event, x, now)
  {
    var e := s.orders[x].event;
    if SentBack(s, DoStatus(x, user), e, x, now) { NextIsDisplaced(s, e, x, now); }
  }

  lemma OtherStepTime(s: State, step: Step, o: OrderId, now: Time)
    requires Shape(s) && o < |s.orders| && !step.DoStatus? && !step.DoCreate?
    ensures |Apply(s, step, now).orders| == |s.orders|
    ensures TimeKept(s, Apply(s, step, now), o, false, false, now)
  {
    var e := s.orders[o].event;
    StillDrains(s, e, now);
    match step
    case DoPay(x) => PayDrains(s, x, now); PayMoves(s, x, e, now); DrainedTime(s, Pay(s, x, now), o, now);
    case DoCancel(x) => CancelDrains(s, x, now); CancelMoves(s, x, e, now); DrainedTime(s, Cancel(s, x, now), o, now);
    case DoUserCancel(x, user) => UserCancelTime(s, x, user, o, now);
    case DoPaymentTurn(x, user) => TurnTime(s, x, user, o, now);
    case DoSweep(snapshot) =>
      SweepDrains(s, snapshot, now);
      SweepMoves(s, snapshot, e, now);
      DrainedTime(s, Sweep(s, snapshot, now), o, now);
    case DoOrganize(_) => DrainedTime(s, s, o, now);
  }

  lemma UserCancelTime(s: State, x: OrderId, user: Option<UserId>, o: OrderId, now: Time)
    requires Shape(s) && o < |s.orders|
    ensures |UserCancel(s, x, user, now).0.orders| == |s.orders|
    ensures TimeKept(s, UserCancel(s, x, user, now).0, o, false, false, now)
  {
    var e := s.orders[o].event;
    UserCancelKeeps(s, x, user, now);
    StillDrains(s, e, now);
    CancelDrains(s, x, now);
    CancelMoves(s, x, e, now);
    DrainedTime(s, s, o, now);
    DrainedTime(s, Cancel(s, x, now), o, now);
  }

  lemma TurnTime(s: State, x: OrderId, user: Option<UserId>, o: OrderId, now: Time)
    requires Shape(s) && o < |s.orders|
    ensures |PaymentTurn(s, x, user, now).0.orders| == |s.orders|
    ensures TimeKept(s, PaymentTurn(s, x, user, now).0, o, false, false, now)
  {
    var e := s.orders[o].event;
    StillDrains(s, e, now);
    DrainedTime(s, s, o, now);
    if x < |s.orders| {
      CheckActiveDrains(s, s.orders[x].event, now);
      CheckActiveMoves(s, s.orders[x].event, e, now);
      DrainedTime(s, CheckActive(s, s.orders[x].event, now), o, now);
    }
  }

  /** Every step, for every order that was there before it. */
  lemma TimeAfter(s: State, step: Step, o: OrderId, now: Time)
    requires Shape(s) && o < |s.orders|
    ensures |s.orders| <= |Apply(s, step, now).orders|
    ensures var e := s.orders[o].event;
            TimeKept(s, Apply(s, step, now), o, SentBack(s, step, e, o, now), LastSecondAt(s, step, e, now), now)
  {
    match step
    case DoCreate(req, fault) => CreateTime(s, req, fault, o, now);
    case DoStatus(x, user) => StatusTime(s, x, user, o, now);
    case _ => OtherStepTime(s, step, o, now);
  }

  /** The row of a new order: the request's user, event and item, PENDING, and in the slot with three minutes or
      at the very back of the list with two hours. */
  lemma NewOrderRow(s: State, req: Request, fault: Fault, now: Time)
    requires Shape(s) && Enters(s, DoCreate(req, fault), now)
    ensures var s', o := Create(s, req, fault, now).0, |s.orders|;
            && |s'.orders| == o + 1
            && s'.orders[o] == Order(req.user, req.event, Pending, s'.orders[o].expiresAt,
                                     [Item(req.ticketType, req.quantity)])
            && var q' := QueueOf(s', req.event);
               || (q'.active == Some(o) && q'.waiting == [] && s'.orders[o].expiresAt == now + 180_000_000)
               || (|q'.waiting| > 0 && q'.waiting[|q'.waiting| - 1] == o && q'.active != Some(o)
                   && s'.orders[o].expiresAt == now + 7_200_000_000)
  {
    var s1, o, e := Admitted(s, req, now), |s.orders|, req.event;
    var q := QueueOf(s1, e);
    EntersCase(s, req, fault, now);
    AdmittedOutside(s, req, e, now);
    EnqueueCases(s1, o, e, now);
    assert QueueOk(s1.orders, q, e);
    if TimedOut(q, now) {
      TimeOutOk(s1, e, q.active.value, now);
      TimeOutShape(s1, q.active.value, now);
      NewcomerRow(s1, TimeOut(s1, e, q.active.value, now), o, e, now);
    } else {
      NewcomerRow(s1, s1, o, e, now);
    }
  }

  lemma NewcomerRow(s1: State, mid: State, o: OrderId, e: EventId, now: Time)
    requires Shape(mid) && o < |s1.orders| == |mid.orders|
    requires mid.orders[o] == s1.orders[o].(expiresAt := mid.orders[o].expiresAt)
    requires !InQueue(QueueOf(mid, e), o)
    ensures var s' := if QueueOf(mid, e).active.None? then Promote(mid, e, o, now) else Push(mid, e, o, now);
            && |s'.orders| == |s1.orders| && s'.orders[o] == s1.orders[o].(expiresAt := s'.orders[o].expiresAt)
            && var q' := QueueOf(s', e);
               || (q'.active == Some(o) && q'.waiting == [] && s'.orders[o].expiresAt == now + 180_000_000)
               || (|q'.waiting| > 0 && q'.waiting[|q'.waiting| - 1] == o && q'.active != Some(o)
                   && s'.orders[o].expiresAt == now + 7_200_000_000)
  {
    assert QueueOk(mid.orders, QueueOf(mid, e), e);
  }

  // ---- whole runs ----

  /** An order that waits all through a run keeps the time it had. */
  lemma {:induction false} TimeOverRuns(s: State, run: Run, e: EventId, a: OrderId)
    requires Shape(s)
    ensures KeepsWaiting(s, run, e, a) ==>
              a < |s.orders| && a < |Exec(s, run).orders| && Exec(s, run).orders[a].expiresAt == s.orders[a].expiresAt
    decreases |run|
  {
    assert QueueOk(s.orders, QueueOf(s, e), e);
    if run != [] && KeepsWaiting(s, run, e, a) {
      var (step, now) := run[0];
      var s' := Apply(s, step, now);
      ShapeKept(s, step, now);
      TimeAfter(s, step, a, now);
      assert KeepsWaiting(s', run[1..], e, a) && Waits(s', e, a);
      TimeOverRuns(s', run[1..], e, a);
    }
  }

  /** The deadline of a waiting order never moves away. */
  lemma {:induction false} DeadlineOverRuns(s: State, run: Run, e: EventId, a: OrderId, clock: Time, lastSweep: Time)
    requires Shape(s) && Possible(s, run) && StaysPending(s, run, e) && Regular(run, clock, lastSweep)
    requires LeaseFresh(s, e, clock, lastSweep) && lastSweep <= clock <= lastSweep + SWEEP_GAP
    ensures KeepsWaiting(s, run, e, a) ==> Deadline(Exec(s, run), e, a) <= Deadline(s, e, a)
    decreases |run|
  {
    if run != [] && KeepsWaiting(s, run, e, a) {
      var (step, now) := run[0];
      var s' := Apply(s, step, now);
      ShapeKept(s, step, now);
      assert KeepsWaiting(s', run[1..], e, a) && Waits(s', e, a);
      LeaseStaysFresh(s, step, e, clock, lastSweep, now);
      DeadlineKept(s, step, e, a, clock, lastSweep, now);
      DeadlineOverRuns(s', run[1..], e, a, now, if step.DoSweep? then now else lastSweep);
    }
  }

  /** No sweep takes an order out of its line: with n orders ahead and at least 182 n seconds of its own time
      left, an order is in no snapshot while it waits, whatever else happens. */
  lemma WaitingIsNeverSwept(s: State, run: Run, e: EventId, a: OrderId, clock: Time, lastSweep: Time,
      snapshot: seq<OrderId>, now: Time)
    requires Shape(s) && Possible(s, run) && StaysPending(s, run, e) && Regular(run, clock, lastSweep)
    requires LeaseFresh(s, e, clock, lastSweep) && lastSweep <= clock <= lastSweep + SWEEP_GAP
    requires Waits(s, e, a) && a < |s.orders|
    requires clock + 182_000_000 * |Ahead(QueueOf(s, e), a)| <= s.orders[a].expiresAt
    requires EndOf(run, clock) <= now <= LastSweep(run, lastSweep) + SWEEP_GAP
    requires IsSnapshot(Exec(s, run), snapshot, now)
    ensures KeepsWaiting(s, run, e, a) ==> a !in snapshot
  {
    if KeepsWaiting(s, run, e, a) {
      var s' := Exec(s, run);
      assert QueueOk(s.orders, QueueOf(s, e), e);
      TimeOverRuns(s, run, e, a);
      LeasesFresh(s, run, e, clock, lastSweep);
      DeadlineOverRuns(s, run, e, a, clock, lastSweep);
      WaitsAtEnd(s, run, e, a);
      ShapeOverRuns(s, run);
      assert QueueOk(s'.orders, QueueOf(s', e), e);
      OneTurn(|Before(QueueOf(s, e).waiting, a)|);
    }
  }

  lemma {:induction false} WaitsAtEnd(s: State, run: Run, e: EventId, a: OrderId)
    requires KeepsWaiting(s, run, e, a)
    ensures Waits(Exec(s, run), e, a)
    decreases |run|
  {
    if run != [] { WaitsAtEnd(Apply(s, run[0].0, run[0].1), run[1..], e, a); }
  }

  /** In particular an order that has just gone to the back of a list with fewer than forty ahead of it. */
  lemma TwoHoursAreEnough(s: State, run: Run, e: EventId, a: OrderId, clock: Time, lastSweep: Time,
      snapshot: seq<OrderId>, now: Time)
    requires Shape(s) && Possible(s, run) && StaysPending(s, run, e) && Regular(run, clock, lastSweep)
    requires LeaseFresh(s, e, clock, lastSweep) && lastSweep <= clock <= lastSweep + SWEEP_GAP
    requires Waits(s, e, a) && a < |s.orders| && s.orders[a].expiresAt == clock + 7_200_000_000
    requires 182 * |Ahead(QueueOf(s, e), a)| < 7200
    requires EndOf(run, clock) <= now <= LastSweep(run, lastSweep) + SWEEP_GAP
    requires IsSnapshot(Exec(s, run), snapshot, now)
    ensures KeepsWaiting(s, run, e, a) ==> a !in snapshot
  {
    WaitingIsNeverSwept(s, run, e, a, clock, lastSweep, snapshot, now);
  }
}
