/** Fairness over whole runs: nobody overtakes, and every wait ends. */
module BoundedWaiting {
  import opened Common
  import opened Sequences
  import opened Orders
  import opened Machine
  import opened WaitingRoom
  import opened RoomTheorems
  import opened Fairness
  import Sweeper

  // The expiry worker ticks every two seconds.
  const SWEEP_GAP: nat := 2 * SECOND

  /** The clock never goes back, and no step is later than one gap after the last sweep. */
  ghost predicate Regular(run: Run, clock: Time, lastSweep: Time)
    decreases |run|
  {
    run == [] || (&& clock <= run[0].1 <= lastSweep + SWEEP_GAP
                  && Regular(run[1..], run[0].1, if run[0].0.DoSweep? then run[0].1 else lastSweep))
  }

  function EndOf(run: Run, clock: Time): Time
    decreases |run|
  {
    if run == [] then clock else EndOf(run[1..], run[0].1)
  }

  function LastSweep(run: Run, lastSweep: Time): Time
    decreases |run|
  {
    if run == [] then lastSweep
    else LastSweep(run[1..], if run[0].0.DoSweep? then run[0].1 else lastSweep)
  }

  /** The order is in the waiting list all through the run, and no step takes it out and puts it back. */
  ghost predicate KeepsWaiting(s: State, run: Run, e: EventId, a: OrderId)
    decreases |run|
  {
    Waits(s, e, a) &&
    (run != [] ==> && !SentBack(s, run[0].0, e, a, run[0].1)
                   && KeepsWaiting(Apply(s, run[0].0, run[0].1), run[1..], e, a))
  }

  /** The slot's lease was granted at most a lease ago and outlived the last sweep. */
  predicate LeaseFresh(s: State, e: EventId, clock: Time, lastSweep: Time) {
    QueueOf(s, e).active.Some? ==> lastSweep <= LeaseEnd(s, e) <= clock + LEASE
  }

  lemma LeaseStaysFresh(s: State, step: Step, e: EventId, clock: Time, lastSweep: Time, now: Time)
    requires Shape(s) && Enabled(s, step, now) && SlotPending(Apply(s, step, now), e)
    requires LeaseFresh(s, e, clock, lastSweep) && lastSweep <= clock <= now
    ensures LeaseFresh(Apply(s, step, now), e, now, if step.DoSweep? then now else lastSweep)
  {
    var s' := Apply(s, step, now);
    StepServes(s, step, e, 0, now);
    ShapeKept(s, step, now);
    assert QueueOk(s.orders, QueueOf(s, e), e) && QueueOk(s'.orders, QueueOf(s', e), e);
    if step.DoSweep? { Sweeper.SweepCorrect(s, step.snapshot, now); }
  }

  /** The active order of the event is PENDING in every state of the run. */
  ghost predicate StaysPending(s: State, run: Run, e: EventId)
    decreases |run|
  {
    SlotPending(s, e) && (run != [] ==> StaysPending(Apply(s, run[0].0, run[0].1), run[1..], e))
  }

  /** It is, whenever it is to begin with, unless a last-second query comes in on this very event. */
  lemma {:induction false} CalmStaysPending(s: State, run: Run, e: EventId)
    requires Shape(s) && LiveAt(s, e) && CalmAt(s, run, e)
    ensures StaysPending(s, run, e)
    decreases |run|
  {
    if run != [] {
      ShapeKept(s, run[0].0, run[0].1);
      LiveKeptIff(s, run[0].0, e, run[0].1);
      CalmStaysPending(Apply(s, run[0].0, run[0].1), run[1..], e);
    }
  }

  /** Every run keeps leases fresh where the active order stays PENDING. */
  lemma {:induction false} LeasesFresh(s: State, run: Run, e: EventId, clock: Time, lastSweep: Time)
    requires Shape(s) && Possible(s, run) && StaysPending(s, run, e) && Regular(run, clock, lastSweep)
    requires LeaseFresh(s, e, clock, lastSweep) && lastSweep <= clock
    ensures LastSweep(run, lastSweep) <= EndOf(run, clock)
    ensures LeaseFresh(Exec(s, run), e, EndOf(run, clock), LastSweep(run, lastSweep))
    decreases |run|
  {
    if run != [] {
      var (step, now) := run[0];
      ShapeKept(s, step, now);
      LeaseStaysFresh(s, step, e, clock, lastSweep, now);
      LeasesFresh(Apply(s, step, now), run[1..], e, now, if step.DoSweep? then now else lastSweep);
    }
  }

  /** Nobody overtakes: while an order waits, its line is always the line it had, shrunk and in order. So
      whoever becomes active meanwhile was ahead of it from the start. */
  lemma {:induction false} NoOvertaking(s: State, run: Run, e: EventId, a: OrderId)
    requires Shape(s)
    ensures KeepsWaiting(s, run, e, a) ==>
              var q, q' := QueueOf(s, e), QueueOf(Exec(s, run), e);
              && Subseq(Ahead(q', a), Ahead(q, a))
              && q'.active.Some? && q'.active.value in Ahead(q, a)
    decreases |run|
  {
    if run == [] {
      SubseqRefl(Ahead(QueueOf(s, e), a));
      assert QueueOk(s.orders, QueueOf(s, e), e);
    } else if KeepsWaiting(s, run, e, a) {
      var (step, now) := run[0];
      var s' := Apply(s, step, now);
      ShapeKept(s, step, now);
      StepServes(s, step, e, a, now);
      assert KeepsWaiting(s', run[1..], e, a) && Waits(s', e, a);
      NoOvertaking(s', run[1..], e, a);
      SubseqTrans(Ahead(QueueOf(Exec(s, run), e), a), Ahead(QueueOf(s', e), a), Ahead(QueueOf(s, e), a));
      SubseqLength(Ahead(QueueOf(Exec(s, run), e), a), Ahead(QueueOf(s, e), a));
    }
  }

  // One turn of the slot at most: the lease and the gap until a sweep notices, 182 seconds.
  function Turns(n: nat): nat {
    182_000_000 * n
  }

  lemma OneTurn(n: nat)
    ensures Turns(n + 1) == LEASE + SWEEP_GAP + Turns(n)
  {
  }

  // The latest moment an order with so many entries before it can still be waiting.
  function Deadline(s: State, e: EventId, a: OrderId): nat {
    LeaseEnd(s, e) + SWEEP_GAP + Turns(|Before(QueueOf(s, e).waiting, a)|)
  }

  // The line gets shorter whenever the slot changes hands.
  lemma LineShrinks(s: State, step: Step, e: EventId, a: OrderId, now: Time)
    requires Shape(s) && Waits(s, e, a) && !SentBack(s, step, e, a, now)
    ensures var q, q' := QueueOf(s, e), QueueOf(Apply(s, step, now), e);
            a in q'.waiting ==>
              && q.active.Some? && q'.active.Some?
              && |Before(q'.waiting, a)| + (if q'.active == q.active then 0 else 1) <= |Before(q.waiting, a)|
  {
    var s' := Apply(s, step, now);
    var q, q' := QueueOf(s, e), QueueOf(s', e);
    ShapeKept(s, step, now);
    StepServes(s, step, e, a, now);
    assert QueueOk(s.orders, q, e) && QueueOk(s'.orders, q', e);
    if a in q'.waiting { ShorterLine(q, q', a); }
  }

  lemma ShorterLine(q: Queue, q': Queue, a: OrderId)
    requires q.active.Some? && q'.active.Some? && Subseq(Ahead(q', a), Ahead(q, a))
    ensures |Before(q'.waiting, a)| + (if q'.active == q.active then 0 else 1) <= |Before(q.waiting, a)|
  {
    if q'.active == q.active {
      SubseqLength(Ahead(q', a), Ahead(q, a));
    } else {
      assert Ahead(q, a)[1..] == Before(q.waiting, a);
      SubseqLength(Ahead(q', a), Before(q.waiting, a));
    }
  }

  lemma DeadlineKept(s: State, step: Step, e: EventId, a: OrderId, clock: Time, lastSweep: Time, now: Time)
    requires Shape(s)
    requires Waits(s, e, a) && !SentBack(s, step, e, a, now) && Waits(Apply(s, step, now), e, a)
    requires LeaseFresh(s, e, clock, lastSweep) && now <= lastSweep + SWEEP_GAP
    ensures Deadline(Apply(s, step, now), e, a) <= Deadline(s, e, a)
  {
    LineShrinks(s, step, e, a, now);
    StepServes(s, step, e, a, now);
    OneTurn(|Before(QueueOf(Apply(s, step, now), e).waiting, a)|);
  }

  /** The bound: with n orders ahead, an order is out of the list within 182 n seconds, whatever arrivals,
      payments, cancellations and queries happen here or at other events, as long as the active order of this
      event stays PENDING. */
  lemma {:induction false} WaitingEnds(s: State, run: Run, e: EventId, a: OrderId, clock: Time, lastSweep: Time)
    requires Shape(s) && Possible(s, run) && StaysPending(s, run, e) && KeepsWaiting(s, run, e, a)
    requires Regular(run, clock, lastSweep) && lastSweep <= clock <= lastSweep + SWEEP_GAP
    requires LeaseFresh(s, e, clock, lastSweep)
    ensures EndOf(run, clock) <= Deadline(s, e, a)
    ensures EndOf(run, clock) <= clock + Turns(|Ahead(QueueOf(s, e), a)|)
    decreases |run|
  {
    assert QueueOk(s.orders, QueueOf(s, e), e);
    OneTurn(|Before(QueueOf(s, e).waiting, a)|);
    if run != [] {
      var (step, now) := run[0];
      var last' := if step.DoSweep? then now else lastSweep;
      ShapeKept(s, step, now);
      LeaseStaysFresh(s, step, e, clock, lastSweep, now);
      DeadlineKept(s, step, e, a, clock, lastSweep, now);
      WaitingEnds(Apply(s, step, now), run[1..], e, a, now, last');
    }
  }

  lemma OutOfQueueIsLost(s: State, o: OrderId)
    requires IsPending(s.orders, o) && !InQueue(QueueOf(s, s.orders[o].event), o)
    ensures o in Lost(s)
  {
  }

  /** An order that a step takes out of the list is active, settled, or was promoted and displaced at once. */
  lemma HowItLeaves(s: State, step: Step, e: EventId, a: OrderId, now: Time)
    requires Shape(s) && Waits(s, e, a) && IsPending(s.orders, a)
    ensures var s' := Apply(s, step, now);
            IsPending(s'.orders, a) && s'.orders[a].event == e && !InQueue(QueueOf(s', e), a)
            ==> a in Dropped(s, step, now)
  {
    var s' := Apply(s, step, now);
    assert QueueOk(s.orders, QueueOf(s, e), e);
    assert a !in Lost(s);
    LostAfter(s, step, now);
    if IsPending(s'.orders, a) && s'.orders[a].event == e && !InQueue(QueueOf(s', e), a) { OutOfQueueIsLost(s', a); }
  }

  // Only sweeps happen in the run.
  predicate OnlySweeps(run: Run) {
    forall i :: 0 <= i < |run| ==> run[i].0.DoSweep?
  }

  lemma {:induction false} SweepKeepsDeadSlot(s: State, snapshot: seq<OrderId>, e: EventId, now: Time)
    requires Shape(s) && !SlotPending(s, e) && QueueOf(s, e).active.value !in snapshot
    ensures QueueOf(Sweep(s, snapshot, now), e).active == QueueOf(s, e).active
    ensures !SlotPending(Sweep(s, snapshot, now), e)
    decreases |snapshot|
  {
    if snapshot != [] {
      var o, mid := snapshot[0], Cancel(s, snapshot[0], now);
      CancelOk(s, o, now);
      assert QueueOk(s.orders, QueueOf(s, e), e);
      if o < |s.orders| {
        CancelShape(s, o, now);
        CancelSlot(s, o, now);
      }
      SweepKeepsDeadSlot(mid, snapshot[1..], e, now);
    }
  }

  /** The condition is needed: a slot whose order is not PENDING is never freed by sweeps, however many come
      and however late. */
  lemma {:induction false} SweepsNeverFreeDeadSlot(s: State, run: Run, e: EventId)
    requires Shape(s) && !SlotPending(s, e) && OnlySweeps(run) && Possible(s, run)
    ensures QueueOf(Exec(s, run), e).active == QueueOf(s, e).active
    decreases |run|
  {
    if run != [] {
      var (step, now) := run[0];
      assert step.DoSweep?;
      ShapeKept(s, step, now);
      SweepKeepsDeadSlot(s, step.snapshot, e, now);
      SweepsNeverFreeDeadSlot(Apply(s, step, now), run[1..], e);
    }
  }
}
