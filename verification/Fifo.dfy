/** First in, first out: the waiting list against a log of every push, for every run from every state. */
module Fifo {
  import opened Common
  import opened Sequences
  import opened Orders
  import opened Machine
  import opened RoomTheorems
  import opened WaitingRoom

  // ---- subsequences ----

  lemma {:induction false} SubseqAppend(u: seq<nat>, v: seq<nat>, x: seq<nat>, y: seq<nat>)
    requires Subseq(u, v) && Subseq(x, y)
    ensures Subseq(u + x, v + y)
    decreases |v|
  {
    if u == [] {
      assert u + x == x;
      SubseqSuffix(v, y);
      SubseqTrans(x, y, v + y);
    } else {
      assert (v + y)[1..] == v[1..] + y;
      if u[0] == v[0] {
        assert (u + x)[1..] == u[1..] + x;
        SubseqAppend(u[1..], v[1..], x, y);
      } else {
        SubseqAppend(u, v[1..], x, y);
        SubseqCons(u + x, v[0], v[1..] + y);
        assert [v[0]] + (v[1..] + y) == v + y;
      }
    }
  }

  // Wherever the shorter list is cut, the longer one can be cut to match.
  lemma {:induction false} SubseqSplit(u: seq<nat>, v: seq<nat>, k: nat) returns (m: nat)
    requires Subseq(u, v) && k <= |u|
    ensures m <= |v| && Subseq(u[..k], v[..m]) && Subseq(u[k..], v[m..])
    decreases |v|
  {
    if k == 0 {
      assert u[0..] == u && v[0..] == v;
      m := 0;
    } else if u[0] == v[0] {
      var n := SubseqSplit(u[1..], v[1..], k - 1);
      m := n + 1;
      assert u[..k][1..] == u[1..][..k - 1] && v[..m][1..] == v[1..][..n];
      assert u[1..][k - 1..] == u[k..] && v[1..][n..] == v[m..];
    } else {
      var n := SubseqSplit(u, v[1..], k);
      m := n + 1;
      assert v[1..][n..] == v[m..];
      SubseqCons(u[..k], v[0], v[1..][..n]);
      assert [v[0]] + v[1..][..n] == v[..m];
    }
  }

  // ---- one change of a list ----

  /** The log can be cut so that everything promoted comes, in order, from the part before the cut, and
      everything still waiting, in order, from the part after it. */
  ghost predicate Split(log: seq<OrderId>, promoted: seq<OrderId>, waiting: seq<OrderId>) {
    exists n :: 0 <= n <= |log| && Subseq(promoted, log[..n]) && Subseq(waiting, log[n..])
  }

  lemma Unmoved(w: seq<OrderId>)
    ensures Split(w + [], [], w)
  {
    assert (w + [])[0..] == w;
    SubseqRefl(w);
  }

  // A change after a change: the second one pushes to what the first one left.
  lemma SplitAgain(log: seq<OrderId>, promoted: seq<OrderId>, w: seq<OrderId>,
      pushed: seq<OrderId>, promoted': seq<OrderId>, w': seq<OrderId>)
    requires Split(log, promoted, w) && Split(w + pushed, promoted', w')
    ensures Split(log + pushed, promoted + promoted', w')
  {
    var n :| 0 <= n <= |log| && Subseq(promoted, log[..n]) && Subseq(w, log[n..]);
    var k :| 0 <= k <= |w + pushed| && Subseq(promoted', (w + pushed)[..k]) && Subseq(w', (w + pushed)[k..]);
    var rest := log[n..] + pushed;
    SubseqRefl(pushed);
    SubseqAppend(w, log[n..], pushed, pushed);
    var m := SubseqSplit(w + pushed, rest, k);
    SubseqTrans(promoted', (w + pushed)[..k], rest[..m]);
    SubseqTrans(w', (w + pushed)[k..], rest[m..]);
    SubseqAppend(promoted, log[..n], promoted', rest[..m]);
    CutLater(log, pushed, n, m);
  }

  lemma CutLater(log: seq<OrderId>, pushed: seq<OrderId>, n: nat, m: nat)
    requires n <= |log| && m <= |log[n..] + pushed|
    ensures (log + pushed)[..n + m] == log[..n] + (log[n..] + pushed)[..m]
    ensures (log + pushed)[n + m..] == (log[n..] + pushed)[m..]
  {
  }

  // ---- what a step pushes and promotes ----

  // Pushed to the list, promoted from it, and let into a free slot without waiting.
  datatype Moved = Moved(pushed: seq<OrderId>, promoted: seq<OrderId>, entered: seq<OrderId>)

  const STILL := Moved([], [], [])

  function Then(a: Moved, b: Moved): Moved {
    Moved(a.pushed + b.pushed, a.promoted + b.promoted, a.entered + b.entered)
  }

  // No order becomes PENDING again.
  ghost predicate Fades(s: State, s': State) {
    |s.orders| <= |s'.orders|
    && forall x: OrderId :: x < |s.orders| && IsPending(s'.orders, x) ==> IsPending(s.orders, x)
  }

  /** The queue of `e` goes from one state to the next by these moves: no order leaves the list still PENDING
      without being promoted, and nobody becomes active but by promotion from the list or through a free slot. */
  ghost predicate Goes(s: State, s': State, e: EventId, m: Moved) {
    var q, q' := QueueOf(s, e), QueueOf(s', e);
    && Fades(s, s')
    && Split(q.waiting + m.pushed, m.promoted, q'.waiting)
    && (forall x: OrderId :: x in q.waiting && x !in q'.waiting && IsPending(s.orders, x) && IsPending(s'.orders, x) ==>
          x in m.promoted)
    && (q'.active.Some? && q'.active != q.active ==> q'.active.value in m.promoted + m.entered)
  }

  lemma GoesStill(s: State, s': State, e: EventId)
    requires QueueOf(s', e).waiting == QueueOf(s, e).waiting && QueueOf(s', e).active == QueueOf(s, e).active
    requires Fades(s, s')
    ensures Goes(s, s', e, STILL)
  {
    Unmoved(QueueOf(s, e).waiting);
  }

  // First only the table changes.
  lemma GoesAfter(s: State, s1: State, s': State, e: EventId, m: Moved)
    requires QueueOf(s1, e) == QueueOf(s, e) && Fades(s, s1) && Goes(s1, s', e, m)
    ensures Goes(s, s', e, m)
  {
  }

  lemma GoesOn(s: State, mid: State, s': State, e: EventId, m: Moved, m': Moved)
    requires Goes(s, mid, e, m) && Goes(mid, s', e, m')
    ensures Goes(s, s', e, Then(m, m'))
  {
    var w := QueueOf(s, e).waiting;
    SplitAgain(w + m.pushed, m.promoted, QueueOf(mid, e).waiting, m'.pushed, m'.promoted, QueueOf(s', e).waiting);
    assert (w + m.pushed) + m'.pushed == w + (m.pushed + m'.pushed);
  }

  // `AdvanceQueue` of event `f` promotes the first PENDING entry, seen from event `e`.
  function AdvanceMoved(s: State, f: EventId, e: EventId): Moved {
    var w := QueueOf(s, f).waiting;
    var k := FirstPending(s.orders, w);
    if f == e && k < |w| then Moved([], [w[k]], []) else STILL
  }

  lemma AdvanceGoes(s: State, f: EventId, e: EventId, now: Time)
    ensures Goes(s, Advance(s, f, now), e, AdvanceMoved(s, f, e))
  {
    var w := QueueOf(s, f).waiting;
    var k := FirstPending(s.orders, w);
    AdvanceLeaves(s, f, now);
    if f != e {
      GoesStill(s, Advance(s, f, now), e);
    } else {
      PoppedOnce(s.orders, w);
      if k < |w| { PopsSplit(w, k); } else { assert (w + [])[|w|..] == []; }
    }
  }

  lemma AdvanceLeaves(s: State, f: EventId, now: Time)
    ensures var r, w := Advance(s, f, now), QueueOf(s, f).waiting;
            var k := FirstPending(s.orders, w);
            && Fades(s, r)
            && (forall e :: e != f ==> QueueOf(r, e) == QueueOf(s, e))
            && QueueOf(r, f).waiting == (if k < |w| then w[k + 1..] else [])
            && QueueOf(r, f).active == if k < |w| then Some(w[k]) else None
  {
  }

  // Of the PENDING entries only the promoted one is popped.
  lemma PoppedOnce(orders: seq<Order>, w: seq<OrderId>)
    ensures var k := FirstPending(orders, w);
            forall x :: x in w && IsPending(orders, x) ==> k < |w| && (x == w[k] || x in w[k + 1..])
  {
    var k := FirstPending(orders, w);
    forall x | x in w && IsPending(orders, x) ensures k < |w| && (x == w[k] || x in w[k + 1..]) {
      var i :| 0 <= i < |w| && w[i] == x;
      assert i >= k;
      assert i > k ==> w[k + 1..][i - k - 1] == x;
    }
  }

  lemma PopsSplit(w: seq<OrderId>, k: nat)
    requires k < |w|
    ensures Split(w + [], [w[k]], w[k + 1..])
  {
    assert w + [] == w && w[..k + 1] == w[..k] + [w[k]];
    SubseqSuffix(w[..k], [w[k]]);
    SubseqRefl(w[k + 1..]);
  }

  function CancelMoved(s: State, o: OrderId, e: EventId): Moved {
    if o < |s.orders| && QueueOf(s, s.orders[o].event).active == Some(o)
    then AdvanceMoved(MarkCancelled(s, o), s.orders[o].event, e)
    else STILL
  }

  lemma CancelGoes(s: State, o: OrderId, e: EventId, now: Time)
    ensures Goes(s, Cancel(s, o, now), e, CancelMoved(s, o, e))
  {
    if o < |s.orders| && QueueOf(s, s.orders[o].event).active == Some(o) {
      AdvanceGoes(MarkCancelled(s, o), s.orders[o].event, e, now);
      GoesAfter(s, MarkCancelled(s, o), Cancel(s, o, now), e, CancelMoved(s, o, e));
    } else if o < |s.orders| && s.orders[o].event == e {
      RemoveGoes(s, Cancel(s, o, now), o, e);
    } else {
      GoesStill(s, Cancel(s, o, now), e);
    }
  }

  // LREM promotes nobody and keeps the order of the others.
  lemma RemoveGoes(s: State, s': State, o: OrderId, e: EventId)
    requires QueueOf(s', e).waiting == Without(QueueOf(s, e).waiting, o)
    requires QueueOf(s', e).active == QueueOf(s, e).active && Fades(s, s')
    requires !IsPending(s'.orders, o)
    ensures Goes(s, s', e, STILL)
  {
    var w := QueueOf(s, e).waiting;
    SubseqWithout(w, o);
    assert (w + [])[0..] == w;
  }

  function TimeOutMoved(s: State, f: EventId, o: OrderId, e: EventId, now: Time): Moved {
    Then(CancelMoved(s, o, e), AdvanceMoved(Cancel(s, o, now), f, e))
  }

  lemma TimeOutGoes(s: State, f: EventId, o: OrderId, e: EventId, now: Time)
    ensures Goes(s, TimeOut(s, f, o, now), e, TimeOutMoved(s, f, o, e, now))
  {
    CancelGoes(s, o, e, now);
    AdvanceGoes(Cancel(s, o, now), f, e, now);
    GoesOn(s, Cancel(s, o, now), TimeOut(s, f, o, now), e, CancelMoved(s, o, e), AdvanceMoved(Cancel(s, o, now), f, e));
  }

  // An order that is enqueued: pushed, unless it takes a free slot.
  function AdmitMoved(s: State, f: EventId, o: OrderId, e: EventId): Moved {
    if f != e then STILL
    else if QueueOf(s, f).active.Some? then Moved([o], [], [])
    else Moved([], [], [o])
  }

  lemma AdmitGoes(s: State, f: EventId, o: OrderId, e: EventId, now: Time)
    ensures Goes(s, if QueueOf(s, f).active.None? then Promote(s, f, o, now) else Push(s, f, o, now), e,
                 AdmitMoved(s, f, o, e))
  {
    var s' := if QueueOf(s, f).active.None? then Promote(s, f, o, now) else Push(s, f, o, now);
    if f != e {
      GoesStill(s, s', e);
    } else if QueueOf(s, f).active.Some? {
      var w := QueueOf(s, e).waiting + [o];
      assert w[0..] == w;
      SubseqRefl(w);
    } else {
      Unmoved(QueueOf(s, e).waiting);
    }
  }

  function EnqueueMoved(s: State, o: OrderId, f: EventId, e: EventId, now: Time): Moved {
    var q := QueueOf(s, f);
    if TimedOut(q, now)
    then Then(TimeOutMoved(s, f, q.active.value, e, now), AdmitMoved(TimeOut(s, f, q.active.value, now), f, o, e))
    else AdmitMoved(s, f, o, e)
  }

  lemma EnqueueGoes(s: State, o: OrderId, f: EventId, e: EventId, now: Time)
    ensures Goes(s, Enqueue(s, o, f, now), e, EnqueueMoved(s, o, f, e, now))
  {
    var q := QueueOf(s, f);
    EnqueueCases(s, o, f, now);
    if TimedOut(q, now) {
      var mid := TimeOut(s, f, q.active.value, now);
      TimeOutGoes(s, f, q.active.value, e, now);
      AdmitGoes(mid, f, o, e, now);
      GoesOn(s, mid, Enqueue(s, o, f, now), e, TimeOutMoved(s, f, q.active.value, e, now), AdmitMoved(mid, f, o, e));
    } else {
      AdmitGoes(s, f, o, e, now);
    }
  }

  function CheckActiveMoved(s: State, f: EventId, e: EventId, now: Time): Moved {
    var q := QueueOf(s, f);
    if q.active.None? then (if q.waiting != [] then AdvanceMoved(s, f, e) else STILL)
    else if LeaseOver(q, now) then TimeOutMoved(s, f, q.active.value, e, now)
    else STILL
  }

  lemma CheckActiveGoes(s: State, f: EventId, e: EventId, now: Time)
    ensures Goes(s, CheckActive(s, f, now), e, CheckActiveMoved(s, f, e, now))
  {
    var q := QueueOf(s, f);
    if q.active.None? {
      if q.waiting != [] { AdvanceGoes(s, f, e, now); } else { GoesStill(s, s, e); }
    } else if LeaseOver(q, now) {
      TimeOutGoes(s, f, q.active.value, e, now);
    } else {
      GoesStill(s, s, e);
    }
  }

  function PlaceMoved(s: State, f: EventId, o: OrderId, e: EventId, now: Time): Moved {
    var q := QueueOf(s, f);
    if q.active == Some(o) then (if q.lease <= Unix(now) then TimeOutMoved(s, f, o, e, now) else STILL)
    else if o in q.waiting then STILL
    else AdmitMoved(s, f, o, e)
  }

  lemma PlaceGoes(s: State, f: EventId, o: OrderId, e: EventId, now: Time)
    ensures Goes(s, Place(s, f, o, now).0, e, PlaceMoved(s, f, o, e, now))
  {
    var q := QueueOf(s, f);
    if q.active == Some(o) && q.lease <= Unix(now) {
      TimeOutGoes(s, f, o, e, now);
    } else if q.active == Some(o) || o in q.waiting {
      GoesStill(s, s, e);
    } else {
      AdmitGoes(s, f, o, e, now);
    }
  }

  function SweepMoved(s: State, snapshot: seq<OrderId>, e: EventId, now: Time): Moved
    decreases |snapshot|
  {
    if snapshot == [] then STILL
    else Then(CancelMoved(s, snapshot[0], e), SweepMoved(Cancel(s, snapshot[0], now), snapshot[1..], e, now))
  }

  lemma {:induction false} SweepGoes(s: State, snapshot: seq<OrderId>, e: EventId, now: Time)
    ensures Goes(s, Sweep(s, snapshot, now), e, SweepMoved(s, snapshot, e, now))
    decreases |snapshot|
  {
    if snapshot == [] {
      GoesStill(s, s, e);
    } else {
      var mid := Cancel(s, snapshot[0], now);
      CancelGoes(s, snapshot[0], e, now);
      SweepGoes(mid, snapshot[1..], e, now);
      GoesOn(s, mid, Sweep(s, snapshot, now), e,
             CancelMoved(s, snapshot[0], e), SweepMoved(mid, snapshot[1..], e, now));
    }
  }

  // A cancellation by the user, with its second clean-up.
  function UserCancelMoved(s: State, o: OrderId, user: Option<UserId>, e: EventId, now: Time): Moved {
    if !MaySee(s, o, user) || s.orders[o].status.Paid? then STILL
    else
      var f, mid := s.orders[o].event, Cancel(s, o, now);
      Then(CancelMoved(s, o, e), if QueueOf(mid, f).active == Some(o) then AdvanceMoved(mid, f, e) else STILL)
  }

  lemma UserCancelGoes(s: State, o: OrderId, user: Option<UserId>, e: EventId, now: Time)
    ensures Goes(s, UserCancel(s, o, user, now).0, e, UserCancelMoved(s, o, user, e, now))
  {
    var s' := UserCancel(s, o, user, now).0;
    if !MaySee(s, o, user) || s.orders[o].status.Paid? {
      GoesStill(s, s', e);
    } else {
      var f, mid := s.orders[o].event, Cancel(s, o, now);
      CancelGoes(s, o, e, now);
      if QueueOf(mid, f).active == Some(o) {
        AdvanceGoes(mid, f, e, now);
        GoesOn(s, mid, s', e, CancelMoved(s, o, e), AdvanceMoved(mid, f, e));
      } else {
        if f == e { RemoveGoes(mid, s', o, e); } else { GoesStill(mid, s', e); }
        GoesOn(s, mid, s', e, CancelMoved(s, o, e), STILL);
      }
    }
  }

  function StatusMoved(s: State, o: OrderId, user: Option<UserId>, e: EventId, now: Time): Moved {
    if !MaySee(s, o, user) || !IsPending(s.orders, o) then STILL
    else
      var f := s.orders[o].event;
      if now > s.orders[o].expiresAt then TimeOutMoved(s, f, o, e, now)
      else Then(CheckActiveMoved(s, f, e, now), PlaceMoved(CheckActive(s, f, now), f, o, e, now))
  }

  lemma StatusGoes(s: State, o: OrderId, user: Option<UserId>, e: EventId, now: Time)
    ensures Goes(s, AskStatus(s, o, user, now).0, e, StatusMoved(s, o, user, e, now))
  {
    if !MaySee(s, o, user) || !IsPending(s.orders, o) {
      GoesStill(s, s, e);
    } else {
      var f := s.orders[o].event;
      if now > s.orders[o].expiresAt {
        TimeOutGoes(s, f, o, e, now);
      } else {
        var mid := CheckActive(s, f, now);
        CheckActiveGoes(s, f, e, now);
        PlaceGoes(mid, f, o, e, now);
        GoesOn(s, mid, Place(mid, f, o, now).0, e, CheckActiveMoved(s, f, e, now), PlaceMoved(mid, f, o, e, now));
      }
    }
  }

  function PayMoved(s: State, o: OrderId, e: EventId): Moved {
    if o >= |s.orders| || s.orders[o].status.Paid? then STILL else AdvanceMoved(MarkPaid(s, o), s.orders[o].event, e)
  }

  lemma PayGoes(s: State, o: OrderId, e: EventId, now: Time)
    ensures Goes(s, Pay(s, o, now), e, PayMoved(s, o, e))
  {
    if o >= |s.orders| || s.orders[o].status.Paid? {
      GoesStill(s, s, e);
    } else {
      AdvanceGoes(MarkPaid(s, o), s.orders[o].event, e, now);
      GoesAfter(s, MarkPaid(s, o), Pay(s, o, now), e, PayMoved(s, o, e));
    }
  }

  /** Every push to the list of `e` that a step makes, re-pushes included, and every promotion from it, those
      that are displaced at once included. */
  function StepMoved(s: State, step: Step, e: EventId, now: Time): Moved {
    match step
    case DoCreate(req, _) =>
      if Enters(s, step, now) then EnqueueMoved(Admitted(s, req, now), |s.orders|, req.event, e, now) else STILL
    case DoPay(o) => PayMoved(s, o, e)
    case DoCancel(o) => CancelMoved(s, o, e)
    case DoUserCancel(o, user) => UserCancelMoved(s, o, user, e, now)
    case DoStatus(o, user) => StatusMoved(s, o, user, e, now)
    case DoPaymentTurn(o, user) =>
      if MaySee(s, o, user) && IsPending(s.orders, o) then CheckActiveMoved(s, s.orders[o].event, e, now) else STILL
    case DoSweep(snapshot) => SweepMoved(s, snapshot, e, now)
    case DoOrganize(_) => STILL
  }

  lemma CreateGoes(s: State, req: Request, fault: Fault, e: EventId, now: Time)
    ensures Goes(s, Create(s, req, fault, now).0, e, StepMoved(s, DoCreate(req, fault), e, now))
  {
    if Enters(s, DoCreate(req, fault), now) {
      EntersCase(s, req, fault, now);
      EnqueueGoes(Admitted(s, req, now), |s.orders|, req.event, e, now);
      GoesAfter(s, Admitted(s, req, now), Create(s, req, fault, now).0, e, StepMoved(s, DoCreate(req, fault), e, now));
    } else {
      RefusedCase(s, req, fault, now);
      GoesStill(s, Create(s, req, fault, now).0, e);
    }
  }

  lemma StepGoes(s: State, step: Step, e: EventId, now: Time)
    ensures Goes(s, Apply(s, step, now), e, StepMoved(s, step, e, now))
  {
    match step
    case DoCreate(req, fault) => CreateGoes(s, req, fault, e, now);
    case DoPay(o) => PayGoes(s, o, e, now);
    case DoCancel(o) => CancelGoes(s, o, e, now);
    case DoUserCancel(o, user) => UserCancelGoes(s, o, user, e, now);
    case DoStatus(o, user) => StatusGoes(s, o, user, e, now);
    case DoPaymentTurn(o, user) =>
      if MaySee(s, o, user) && IsPending(s.orders, o) { CheckActiveGoes(s, s.orders[o].event, e, now); }
      else { GoesStill(s, s, e); }
    case DoSweep(snapshot) => SweepGoes(s, snapshot, e, now);
    case DoOrganize(_) => GoesStill(s, Apply(s, step, now), e);
  }

  // ---- who comes from outside ----

  lemma QuietMoves(s: State, f: EventId, o: OrderId, e: EventId, now: Time)
    ensures CancelMoved(s, o, e).pushed == CancelMoved(s, o, e).entered == []
    ensures TimeOutMoved(s, f, o, e, now).pushed == TimeOutMoved(s, f, o, e, now).entered == []
    ensures CheckActiveMoved(s, f, e, now).pushed == CheckActiveMoved(s, f, e, now).entered == []
  {
    var active := QueueOf(s, f).active;
    if active.Some? { TimeOutIsQuiet(s, f, active.value, e, now); }
    TimeOutIsQuiet(s, f, o, e, now);
  }

  lemma TimeOutIsQuiet(s: State, f: EventId, o: OrderId, e: EventId, now: Time)
    ensures TimeOutMoved(s, f, o, e, now).pushed == TimeOutMoved(s, f, o, e, now).entered == []
  {
  }

  lemma {:induction false} SweepIsQuiet(s: State, snapshot: seq<OrderId>, e: EventId, now: Time)
    ensures SweepMoved(s, snapshot, e, now).pushed == SweepMoved(s, snapshot, e, now).entered == []
    decreases |snapshot|
  {
    if snapshot != [] { SweepIsQuiet(Cancel(s, snapshot[0], now), snapshot[1..], e, now); }
  }

  /** At most this order comes from outside: to the very back of the list, or into the slot when nobody waits. */
  predicate LetsIn(m: Moved, q: Queue, o: OrderId) {
    || (m.pushed == [] && m.entered == [])
    || (m.pushed == [o] && m.entered == [] && |q.waiting| > 0 && q.waiting[|q.waiting| - 1] == o)
    || (m.pushed == [] && m.entered == [o] && q.active == Some(o) && q.waiting == [])
  }

  lemma AdmitLetsIn(s: State, f: EventId, o: OrderId, e: EventId, now: Time)
    requires Shape(s)
    ensures LetsIn(AdmitMoved(s, f, o, e),
                   QueueOf(if QueueOf(s, f).active.None? then Promote(s, f, o, now) else Push(s, f, o, now), e), o)
  {
    assert QueueOk(s.orders, QueueOf(s, f), f);
  }

  lemma EnqueueLetsIn(s: State, o: OrderId, f: EventId, e: EventId, now: Time)
    requires Shape(s)
    ensures LetsIn(EnqueueMoved(s, o, f, e, now), QueueOf(Enqueue(s, o, f, now), e), o)
  {
    var q := QueueOf(s, f);
    EnqueueCases(s, o, f, now);
    if TimedOut(q, now) {
      TimeOutOk(s, f, q.active.value, now);
      TimeOutIsQuiet(s, f, q.active.value, e, now);
      AdmitLetsIn(TimeOut(s, f, q.active.value, now), f, o, e, now);
      LetsInAfter(TimeOutMoved(s, f, q.active.value, e, now),
                  AdmitMoved(TimeOut(s, f, q.active.value, now), f, o, e), QueueOf(Enqueue(s, o, f, now), e), o);
    } else {
      AdmitLetsIn(s, f, o, e, now);
    }
  }

  lemma LetsInAfter(m: Moved, m': Moved, q: Queue, o: OrderId)
    requires m.pushed == [] && m.entered == [] && LetsIn(m', q, o)
    ensures LetsIn(Then(m, m'), q, o)
  {
    assert m.pushed + m'.pushed == m'.pushed && m.entered + m'.entered == m'.entered;
  }

  lemma PlaceLetsIn(s: State, f: EventId, o: OrderId, e: EventId, now: Time)
    requires Shape(s)
    ensures LetsIn(PlaceMoved(s, f, o, e, now), QueueOf(Place(s, f, o, now).0, e), o)
  {
    TimeOutIsQuiet(s, f, o, e, now);
    AdmitLetsIn(s, f, o, e, now);
  }

  lemma StatusLetsIn(s: State, o: OrderId, user: Option<UserId>, e: EventId, now: Time)
    requires Shape(s)
    ensures LetsIn(StatusMoved(s, o, user, e, now), QueueOf(AskStatus(s, o, user, now).0, e), o)
  {
    if MaySee(s, o, user) && IsPending(s.orders, o) {
      var f := s.orders[o].event;
      QuietMoves(s, f, o, e, now);
      if now <= s.orders[o].expiresAt {
        var mid := CheckActive(s, f, now);
        CheckActiveKeeps(s, f, now);
        PlaceLetsIn(mid, f, o, e, now);
        LetsInAfter(CheckActiveMoved(s, f, e, now), PlaceMoved(mid, f, o, e, now),
                    QueueOf(Place(mid, f, o, now).0, e), o);
      }
    }
  }

  lemma CreateLetsIn(s: State, req: Request, fault: Fault, e: EventId, now: Time)
    requires Shape(s)
    ensures LetsIn(StepMoved(s, DoCreate(req, fault), e, now), QueueOf(Create(s, req, fault, now).0, e), |s.orders|)
  {
    if Enters(s, DoCreate(req, fault), now) {
      EntersCase(s, req, fault, now);
      AppendKeeps(s, Admitted(s, req, now));
      EnqueueLetsIn(Admitted(s, req, now), |s.orders|, req.event, e, now);
    }
  }

  // The order a step can bring in from outside: a new one, or the one that asks for its status.
  function Newcomer(s: State, step: Step): OrderId {
    if step.DoStatus? then step.order else |s.orders|
  }

  /** The pushes and entries of a step are real: at most one order comes from outside, it is the new order or
      the asking one, and it jumps no queue. Payments, cancellations, turns and sweeps bring in nobody. */
  lemma StepLetsIn(s: State, step: Step, e: EventId, now: Time)
    requires Shape(s)
    ensures LetsIn(StepMoved(s, step, e, now), QueueOf(Apply(s, step, now), e), Newcomer(s, step))
    ensures !step.DoCreate? && !step.DoStatus? ==>
              StepMoved(s, step, e, now).pushed == StepMoved(s, step, e, now).entered == []
  {
    match step
    case DoCreate(req, fault) => CreateLetsIn(s, req, fault, e, now);
    case DoStatus(o, user) => StatusLetsIn(s, o, user, e, now);
    case DoPaymentTurn(o, _) => if o < |s.orders| { QuietMoves(s, s.orders[o].event, o, e, now); }
    case DoSweep(snapshot) => SweepIsQuiet(s, snapshot, e, now);
    case _ =>
  }

  // ---- whole runs ----

  /** All pushes and all promotions of a run, in order. */
  function RunMoved(s: State, run: Run, e: EventId): Moved
    decreases |run|
  {
    if run == [] then STILL
    else Then(StepMoved(s, run[0].0, e, run[0].1), RunMoved(Apply(s, run[0].0, run[0].1), run[1..], e))
  }

  /** Whoever is seen to have become active, step by step. */
  function Actives(s: State, run: Run, e: EventId): seq<OrderId>
    decreases |run|
  {
    if run == [] then []
    else
      var s' := Apply(s, run[0].0, run[0].1);
      var a, a' := QueueOf(s, e).active, QueueOf(s', e).active;
      (if a'.Some? && a' != a then [a'.value] else []) + Actives(s', run[1..], e)
  }

  lemma {:induction false} ActivesMoved(s: State, run: Run, e: EventId)
    ensures forall x :: x in Actives(s, run, e) ==> x in RunMoved(s, run, e).promoted + RunMoved(s, run, e).entered
    decreases |run|
  {
    if run != [] {
      StepGoes(s, run[0].0, e, run[0].1);
      ActivesMoved(Apply(s, run[0].0, run[0].1), run[1..], e);
    }
  }

  lemma {:induction false} RunGoes(s: State, run: Run, e: EventId)
    ensures Goes(s, Exec(s, run), e, RunMoved(s, run, e))
    decreases |run|
  {
    if run == [] {
      GoesStill(s, s, e);
    } else {
      var (step, now) := run[0];
      var s' := Apply(s, step, now);
      StepGoes(s, step, e, now);
      RunGoes(s', run[1..], e);
      GoesOn(s, s', Exec(s, run), e, StepMoved(s, step, e, now), RunMoved(s', run[1..], e));
    }
  }

  predicate PushedBefore(log: seq<OrderId>, x: OrderId, y: OrderId) {
    exists i, j | 0 <= i < |log| && 0 <= j < |log| :: i < j && log[i] == x && log[j] == y
  }

  lemma SplitOrders(log: seq<OrderId>, promoted: seq<OrderId>, waiting: seq<OrderId>, x: OrderId, y: OrderId)
    requires Split(log, promoted, waiting) && x in promoted && y in waiting
    ensures PushedBefore(log, x, y)
  {
    var n :| 0 <= n <= |log| && Subseq(promoted, log[..n]) && Subseq(waiting, log[n..]);
    SubseqLength(promoted, log[..n]);
    SubseqLength(waiting, log[n..]);
    var i :| 0 <= i < n && log[i] == x;
    var j :| n <= j < |log| && log[j] == y;
  }

  /** First in, first out, for every run from every state: of the log of everything that waited and was pushed,
      promotions from the list come in order from a consumed prefix, and whoever waits stands in order in the
      rest. So whoever was promoted from the list was pushed before whoever still waits; and whoever became
      active was promoted from the list or took a free slot. */
  lemma FirstInFirstOut(s: State, run: Run, e: EventId)
    ensures var moved, waiting := RunMoved(s, run, e), QueueOf(Exec(s, run), e).waiting;
            var log := QueueOf(s, e).waiting + moved.pushed;
            && Split(log, moved.promoted, waiting)
            && (forall x, y :: x in moved.promoted && y in waiting ==> PushedBefore(log, x, y))
            && (forall x :: x in Actives(s, run, e) ==> x in moved.promoted + moved.entered)
  {
    RunGoes(s, run, e);
    ActivesMoved(s, run, e);
    var moved, waiting := RunMoved(s, run, e), QueueOf(Exec(s, run), e).waiting;
    forall x, y | x in moved.promoted && y in waiting
      ensures PushedBefore(QueueOf(s, e).waiting + moved.pushed, x, y)
    {
      SplitOrders(QueueOf(s, e).waiting + moved.pushed, moved.promoted, waiting, x, y);
    }
  }
}
