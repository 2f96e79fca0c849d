/** Where every ticket of the quota is: still in the counter, held by a live order, or issued. */
module Conservation {
  import opened Common
  import opened Sequences
  import opened Orders
  import opened Inventory
  import opened Machine
  import opened WaitingRoom
  import opened RoomTheorems
  import opened Sweeper

  // ---- sums over the order table ----

  lemma {:induction false} HeldSame(a: seq<Order>, b: seq<Order>, t: TypeId)
    requires |a| == |b|
    requires forall o :: 0 <= o < |a| ==> b[o].items == a[o].items && b[o].status == a[o].status
    ensures Held(a, t) == Held(b, t) && PaidFor(a, t) == PaidFor(b, t)
  {
    if a != [] { HeldSame(a[..|a| - 1], b[..|b| - 1], t); }
  }

  lemma {:induction false} AskedConcat(a: seq<Item>, b: seq<Item>, t: TypeId)
    ensures Asked(a + b, t) == Asked(a, t) + Asked(b, t)
  {
    if a == [] {
      assert a + b == b;
    } else {
      assert (a + b)[1..] == a[1..] + b;
      AskedConcat(a[1..], b, t);
    }
  }

  lemma AskedOne(item: Item, t: TypeId)
    ensures Asked([item], t) == if item.ticketType == t then item.quantity else 0
  {
  }

  lemma {:induction false} ReleaseAllCounter(st: Stock, items: seq<Item>, t: TypeId)
    ensures var st' := ReleaseAll(st, items);
            && st'.counter.Keys == st.counter.Keys
            && (t in st.counter ==> st'.counter[t] == st.counter[t] + Asked(items, t))
    decreases |items|
  {
    if items != [] {
      ReleaseAllCounter(Release(st, items[0].ticketType, items[0].quantity), items[1..], t);
    }
  }

  // A release of what the row counts lowers `sold` of this type alone.
  lemma ReleaseRow(st: Stock, t: TypeId, n: Quantity)
    requires Refines(st) && (t in st.rows ==> n <= st.rows[t].sold)
    ensures var st1 := Release(st, t, n);
            && Refines(st1) && st1.rows.Keys == st.rows.Keys
            && forall u :: u in st.rows ==>
                 st1.rows[u] == st.rows[u].(sold := st.rows[u].sold - (if u == t then n else 0))
  {
    ReleaseKeepsRefines(st, t, n);
  }

  lemma {:induction false} ReleaseAllRows(st: Stock, items: seq<Item>)
    requires Refines(st)
    requires forall t :: t in st.rows ==> Asked(items, t) <= st.rows[t].sold
    ensures var st' := ReleaseAll(st, items);
            && Refines(st') && st'.rows.Keys == st.rows.Keys
            && forall t :: t in st.rows ==>
                 st'.rows[t] == st.rows[t].(sold := st.rows[t].sold - Asked(items, t))
    decreases |items|
  {
    if items != [] {
      var t, n := items[0].ticketType, items[0].quantity;
      assert t in st.rows ==> Asked(items, t) >= n;
      ReleaseRow(st, t, n);
      ReleaseAllRows(Release(st, t, n), items[1..]);
    }
  }

  // ---- what timeouts and sweeps come down to ----

  // Some orders that are not PAID are cancelled, the items of each are released once, and nothing else
  // happens to the books; queues and lease ends may change.
  ghost predicate Thins(s: State, s': State, gone: seq<OrderId>) {
    && NoDup(gone) && (forall o :: o in gone ==> o < |s.orders| && !s.orders[o].status.Paid?)
    && |s'.orders| == |s.orders|
    && (forall o :: 0 <= o < |s.orders| ==>
          && s'.orders[o].items == s.orders[o].items
          && s'.orders[o].status == if o in gone then Cancelled else s.orders[o].status)
    && s'.stock == ReleaseAll(s.stock, ItemsOf(s.orders, gone))
    && s'.tickets == s.tickets
  }

  // The orders that a step cancels because their time is over.
  function Gone(s: State, step: Step, now: Time): seq<OrderId> {
    match step
    case DoStatus(o, user) =>
      if !MaySee(s, o, user) || !IsPending(s.orders, o) then []
      else if now > s.orders[o].expiresAt then [o]
      else Overdue(s, s.orders[o].event, now)
    case DoPaymentTurn(o, user) =>
      if !MaySee(s, o, user) || !IsPending(s.orders, o) then [] else Overdue(s, s.orders[o].event, now)
    case DoSweep(snapshot) => snapshot
    case _ => []
  }

  function Overdue(s: State, e: EventId, now: Time): seq<OrderId> {
    var q := QueueOf(s, e);
    if LeaseOver(q, now) then [q.active.value] else []
  }

  // The same for the stricter test of an enqueue.
  function Late(s: State, e: EventId, now: Time): seq<OrderId> {
    var q := QueueOf(s, e);
    if TimedOut(q, now) then [q.active.value] else []
  }

  lemma OneItemList(orders: seq<Order>, o: OrderId)
    requires o < |orders|
    ensures ItemsOf(orders, [o]) == orders[o].items
  {
  }

  lemma TimeOutThins(s: State, o: OrderId, now: Time)
    requires Shape(s) && o < |s.orders| && !s.orders[o].status.Paid?
    ensures Thins(s, TimeOut(s, s.orders[o].event, o, now), [o])
  {
    TimeOutShape(s, o, now);
    OneItemList(s.orders, o);
  }

  lemma CheckActiveThins(s: State, e: EventId, now: Time)
    requires Shape(s)
    ensures Thins(s, CheckActive(s, e, now), Overdue(s, e, now))
  {
    var q := QueueOf(s, e);
    assert QueueOk(s.orders, q, e);
    if LeaseOver(q, now) { TimeOutThins(s, q.active.value, now); }
  }

  // Queues and lease ends do not show in the books.
  lemma ThinsThenMoves(s: State, mid: State, s': State, gone: seq<OrderId>)
    requires Thins(s, mid, gone) && SameButExpiry(mid.orders, s'.orders)
    requires s'.stock == mid.stock && s'.tickets == mid.tickets
    ensures Thins(s, s', gone)
  {
  }

  // A placement cancels nobody else once the lease of the slot is seen to run.
  lemma PlaceMoves(s: State, e: EventId, o: OrderId, now: Time)
    requires Shape(s) && !LeaseOver(QueueOf(s, e), now)
    ensures var s' := Place(s, e, o, now).0;
            SameButExpiry(s.orders, s'.orders) && s'.stock == s.stock && s'.tickets == s.tickets
  {
    assert QueueOk(s.orders, QueueOf(s, e), e);
  }

  lemma StatusThins(s: State, o: OrderId, user: Option<UserId>, now: Time)
    requires Shape(s)
    ensures Thins(s, AskStatus(s, o, user, now).0, Gone(s, DoStatus(o, user), now))
  {
    if MaySee(s, o, user) && IsPending(s.orders, o) {
      var e := s.orders[o].event;
      if now > s.orders[o].expiresAt {
        TimeOutThins(s, o, now);
      } else {
        var mid := CheckActive(s, e, now);
        CheckActiveThins(s, e, now);
        BeforePlace(s, o, user, now);
        PlaceMoves(mid, e, o, now);
        ThinsThenMoves(s, mid, Place(mid, e, o, now).0, Overdue(s, e, now));
      }
    }
  }

  lemma SweepThins(s: State, snapshot: seq<OrderId>, now: Time)
    requires Shape(s) && IsSnapshot(s, snapshot, now)
    ensures Thins(s, Sweep(s, snapshot, now), snapshot)
  {
    SweepLoop(s, snapshot, now);
    SweepTickets(s, snapshot, now);
  }

  lemma {:induction false} SweepTickets(s: State, rest: seq<OrderId>, now: Time)
    requires Shape(s)
    ensures Sweep(s, rest, now).tickets == s.tickets
    decreases |rest|
  {
    if rest != [] {
      CancelOk(s, rest[0], now);
      if rest[0] < |s.orders| { CancelShape(s, rest[0], now); }
      SweepTickets(Cancel(s, rest[0], now), rest[1..], now);
    }
  }

  lemma EnqueueThins(s: State, o: OrderId, e: EventId, now: Time)
    requires Shape(s)
    ensures Thins(s, Enqueue(s, o, e, now), Late(s, e, now))
  {
    var q := QueueOf(s, e);
    EnqueueCases(s, o, e, now);
    if TimedOut(q, now) {
      assert QueueOk(s.orders, q, e);
      var mid := TimeOut(s, e, q.active.value, now);
      TimeOutThins(s, q.active.value, now);
      AdmitMoves(mid, o, e, now);
      ThinsThenMoves(s, mid, Enqueue(s, o, e, now), [q.active.value]);
    } else {
      AdmitMoves(s, o, e, now);
      ThinsThenMoves(s, s, Enqueue(s, o, e, now), []);
    }
  }

  lemma AdmitMoves(s: State, o: OrderId, e: EventId, now: Time)
    ensures SameButExpiry(s.orders, Promote(s, e, o, now).orders) && SameButExpiry(s.orders, Push(s, e, o, now).orders)
    ensures Promote(s, e, o, now).stock == Push(s, e, o, now).stock == s.stock
    ensures Promote(s, e, o, now).tickets == Push(s, e, o, now).tickets == s.tickets
  {
  }

  // What orders that were CANCELLED before are released once more.
  function Excess(orders: seq<Order>, gone: seq<OrderId>, t: TypeId): nat {
    if gone == [] then 0
    else (if IsCancelled(orders, gone[0]) then Asked(orders[gone[0]].items, t) else 0) + Excess(orders, gone[1..], t)
  }

  lemma {:induction false} ExcessSame(a: seq<Order>, b: seq<Order>, gone: seq<OrderId>, t: TypeId)
    requires forall o :: o in gone ==> o < |a| && o < |b| && a[o].items == b[o].items && a[o].status == b[o].status
    ensures Excess(a, gone, t) == Excess(b, gone, t)
  {
    if gone != [] {
      assert forall o :: o in gone[1..] ==> o in gone;
      ExcessSame(a, b, gone[1..], t);
    }
  }

  lemma {:induction false} NoExcess(orders: seq<Order>, gone: seq<OrderId>, t: TypeId)
    requires forall o :: o in gone ==> !IsCancelled(orders, o)
    ensures Excess(orders, gone, t) == 0
  {
    if gone != [] {
      assert forall o :: o in gone[1..] ==> o in gone;
      NoExcess(orders, gone[1..], t);
    }
  }

  /** Timeouts and sweeps take from the live orders exactly what they release, except what they release for
      orders that were CANCELLED already, and leave what is paid. */
  lemma {:induction false} ThinnedSums(a: seq<Order>, b: seq<Order>, gone: seq<OrderId>, t: TypeId)
    requires |a| == |b| && NoDup(gone) && forall o :: o in gone ==> o < |a| && !a[o].status.Paid?
    requires forall o :: 0 <= o < |a| ==>
               b[o].items == a[o].items && b[o].status == if o in gone then Cancelled else a[o].status
    ensures Held(b, t) == Held(a, t) - Asked(ItemsOf(a, gone), t) + Excess(a, gone, t)
    ensures PaidFor(b, t) == PaidFor(a, t)
    decreases |gone|
  {
    if gone == [] {
      HeldSame(a, b, t);
    } else {
      var o := gone[0];
      assert o in gone;
      var a1 := a[o := a[o].(status := Cancelled)];
      HeldUpdate(a, o, a1[o], t);
      AskedConcat(a[o].items, ItemsOf(a, gone[1..]), t);
      RestIsSame(a, a1, gone, t);
      ThinnedSums(a1, b, gone[1..], t);
    }
  }

  // Behind its head, a list without duplicates does not see what happens to the head.
  lemma RestIsSame(a: seq<Order>, a1: seq<Order>, gone: seq<OrderId>, t: TypeId)
    requires NoDup(gone) && gone != [] && forall o :: o in gone ==> o < |a|
    requires |a1| == |a| && forall x :: 0 <= x < |a| && x != gone[0] ==> a1[x] == a[x]
    ensures ItemsOf(a1, gone[1..]) == ItemsOf(a, gone[1..]) && Excess(a1, gone[1..], t) == Excess(a, gone[1..], t)
    ensures NoDup(gone[1..]) && gone[0] !in gone[1..]
    ensures forall x :: x in gone <==> x == gone[0] || x in gone[1..]
  {
    forall x | x in gone[1..] ensures x in gone && x != gone[0] {}
    ItemsOfSame(a, a1, gone[1..]);
    ExcessSame(a, a1, gone[1..], t);
  }

  // ---- conservation ----

  function Total(s: State, t: TypeId): int
    requires t in s.stock.counter
  {
    s.stock.counter[t] + Held(s.orders, t)
  }

  /** The counter of `t` stays, and with what live orders hold it adds up to `more` than it did. */
  ghost predicate TotalGrows(s: State, s': State, t: TypeId, more: nat)
    requires t in s.stock.counter
  {
    t in s'.stock.counter && Total(s', t) == Total(s, t) + more
  }

  lemma ThinsTotal(s: State, s': State, gone: seq<OrderId>, t: TypeId)
    requires Thins(s, s', gone) && t in s.stock.counter
    ensures TotalGrows(s, s', t, Excess(s.orders, gone, t))
  {
    ThinnedSums(s.orders, s'.orders, gone, t);
    ReleaseAllCounter(s.stock, ItemsOf(s.orders, gone), t);
  }

  /** What an order gives back again, or is given again, when it is CANCELLED already. */
  function Again(s: State, o: OrderId, t: TypeId): nat {
    if IsCancelled(s.orders, o) then Asked(s.orders[o].items, t) else 0
  }

  lemma CancelTotal(s: State, o: OrderId, t: TypeId, now: Time)
    requires Shape(s) && t in s.stock.counter
    ensures TotalGrows(s, Cancel(s, o, now), t, Again(s, o, t))
  {
    if o < |s.orders| {
      var s', cancelled := Cancel(s, o, now), s.orders[o].(status := Cancelled);
      CancelShape(s, o, now);
      HeldSame(s.orders[o := cancelled], s'.orders, t);
      HeldUpdate(s.orders, o, cancelled, t);
      ReleaseAllCounter(s.stock, s.orders[o].items, t);
    }
  }

  /** What a payment does to the books. */
  lemma PayBooks(s: State, o: OrderId, t: TypeId, now: Time)
    requires Shape(s) && o < |s.orders| && !s.orders[o].status.Paid?
    ensures var orders' := Pay(s, o, now).orders;
            && Held(orders', t) == Held(s.orders, t) + Again(s, o, t)
            && PaidFor(orders', t) == PaidFor(s.orders, t) + Asked(s.orders[o].items, t)
  {
    var paid := s.orders[o].(status := Paid);
    PayShape(s, o, now);
    HeldUpdate(s.orders, o, paid, t);
    HeldSame(s.orders[o := paid], Pay(s, o, now).orders, t);
  }

  lemma PayTotal(s: State, o: OrderId, t: TypeId, now: Time)
    requires Shape(s) && t in s.stock.counter
    ensures TotalGrows(s, Pay(s, o, now), t, Again(s, o, t))
  {
    if o < |s.orders| && !s.orders[o].status.Paid? {
      PayShape(s, o, now);
      PayBooks(s, o, t, now);
    }
  }

  // What a reservation that is not kept leaves: refused, or taken and released again.
  function Unkept(st: Stock, t: TypeId, n: Quantity, now: Time): Stock {
    var (st', r) := Reserve(st, t, n, now);
    if r.Reserved? then Release(st', t, n) else st'
  }

  lemma UnkeptCounter(st: Stock, t: TypeId, n: Quantity, now: Time)
    ensures forall u :: u in st.counter ==>
              u in Unkept(st, t, n, now).counter && Unkept(st, t, n, now).counter[u] == st.counter[u]
  {
    ReserveMovesCounter(st, t, n, now);
  }

  lemma FailedCreateStock(s: State, req: Request, fault: Fault, now: Time)
    requires !Enters(s, DoCreate(req, fault), now)
    ensures var st := Create(s, req, fault, now).0.stock;
            st == s.stock
            || (st == Unkept(s.stock, req.ticketType, req.quantity, now)
                && Objection(s.stock, req.ticketType, now).None?)
  {
    if !HasOpenOrder(s, req.user, req.event, now) && Replay(s, req.key).None? {
      FailedOwnedStock(SetToken(s, req.key, Processing), req, fault, now);
    }
  }

  lemma FailedOwnedStock(s: State, req: Request, fault: Fault, now: Time)
    requires CreateOwned(s, req, fault, now).1.Failure?
    ensures var st := CreateOwned(s, req, fault, now).0.stock;
            st == s.stock
            || (st == Unkept(s.stock, req.ticketType, req.quantity, now)
                && Objection(s.stock, req.ticketType, now).None?)
  {
  }

  lemma AdmittedTotal(s: State, req: Request, t: TypeId, now: Time)
    requires Reserve(s.stock, req.ticketType, req.quantity, now).1.Reserved? && t in s.stock.counter
    ensures TotalGrows(s, Admitted(s, req, now), t, 0)
  {
    var s1 := Admitted(s, req, now);
    ReserveMovesCounter(s.stock, req.ticketType, req.quantity, now);
    HeldAppend(s.orders, s1.orders[|s.orders|], t);
    AskedOne(Item(req.ticketType, req.quantity), t);
  }

  lemma EnqueueTotal(s: State, o: OrderId, e: EventId, t: TypeId, now: Time)
    requires Shape(s) && t in s.stock.counter
    ensures TotalGrows(s, Enqueue(s, o, e, now), t, Excess(s.orders, Late(s, e, now), t))
  {
    EnqueueThins(s, o, e, now);
    ThinsTotal(s, Enqueue(s, o, e, now), Late(s, e, now), t);
  }

  // An order that enters, and whoever it times out.
  lemma EnteredTotal(s: State, req: Request, fault: Fault, t: TypeId, now: Time)
    requires Shape(s) && Enters(s, DoCreate(req, fault), now) && t in s.stock.counter
    ensures TotalGrows(s, Create(s, req, fault, now).0, t, Excess(s.orders, Late(s, req.event, now), t))
  {
    EntersCase(s, req, fault, now);
    AppendKeeps(s, Admitted(s, req, now));
    AdmittedTotal(s, req, t, now);
    EnqueueTotal(Admitted(s, req, now), |s.orders|, req.event, t, now);
    LateSame(s, Admitted(s, req, now), req.event, t, now);
  }

  lemma LateSame(s: State, s1: State, e: EventId, t: TypeId, now: Time)
    requires Shape(s) && s1.queues == s.queues && s.orders <= s1.orders
    ensures Late(s1, e, now) == Late(s, e, now)
    ensures Excess(s1.orders, Late(s, e, now), t) == Excess(s.orders, Late(s, e, now), t)
  {
    assert QueueOk(s.orders, QueueOf(s, e), e);
    ExcessSame(s1.orders, s.orders, Late(s, e, now), t);
  }

  lemma RefusedTotal(s: State, req: Request, fault: Fault, t: TypeId, now: Time)
    requires !Enters(s, DoCreate(req, fault), now) && t in s.stock.counter
    ensures TotalGrows(s, Create(s, req, fault, now).0, t, 0)
  {
    RefusedCase(s, req, fault, now);
    FailedCreateStock(s, req, fault, now);
    UnkeptCounter(s.stock, req.ticketType, req.quantity, now);
    HeldAppend(s.orders, NewOrder(req, Cancelled, [], now), t);
  }

  /** The steps of ticket-service; the organizer's steps set counters from their rows instead. */
  predicate Sells(step: Step) {
    !step.DoOrganize?
  }

  // An order, if it is CANCELLED.
  function Spent(s: State, o: OrderId): (r: Option<OrderId>)
    ensures r.Some? ==> IsCancelled(s.orders, r.value)
  {
    if IsCancelled(s.orders, o) then Some(o) else None
  }

  /** The CANCELLED order that a step pays or cancels, if any: the code looks at no status before a
      cancellation, and only for PAID before a payment. It can be the order the step is about, or an active
      order that a last-second query has put back, whose lease is over. */
  function Rehit(s: State, step: Step, now: Time): (r: Option<OrderId>)
    ensures r.Some? ==> IsCancelled(s.orders, r.value)
  {
    match step
    case DoPay(o) => Spent(s, o)
    case DoCancel(o) => Spent(s, o)
    case DoUserCancel(o, user) => if MaySee(s, o, user) then Spent(s, o) else None
    case DoCreate(req, fault) =>
      var q := QueueOf(s, req.event);
      if Enters(s, step, now) && TimedOut(q, now) then Spent(s, q.active.value) else None
    case DoStatus(o, user) =>
      if MaySee(s, o, user) && IsPending(s.orders, o) && now <= s.orders[o].expiresAt
      then SpentSlot(s, s.orders[o].event, now) else None
    case DoPaymentTurn(o, user) =>
      if MaySee(s, o, user) && IsPending(s.orders, o) then SpentSlot(s, s.orders[o].event, now) else None
    case _ => None
  }

  function SpentSlot(s: State, e: EventId, now: Time): (r: Option<OrderId>)
    ensures r.Some? ==> IsCancelled(s.orders, r.value)
  {
    var q := QueueOf(s, e);
    if LeaseOver(q, now) then Spent(s, q.active.value) else None
  }

  /** What a step creates out of nothing: the items of the order it hits again. */
  function Surplus(s: State, step: Step, t: TypeId, now: Time): nat {
    var hit := Rehit(s, step, now);
    if hit.Some? then Asked(s.orders[hit.value].items, t) else 0
  }

  // The status queries, payment turns and sweeps only cancel what is overdue.
  lemma QuietThins(s: State, step: Step, now: Time)
    requires Shape(s) && Enabled(s, step, now)
    requires step.DoStatus? || step.DoPaymentTurn? || step.DoSweep?
    ensures Thins(s, Apply(s, step, now), Gone(s, step, now))
  {
    match step
    case DoStatus(o, user) => StatusThins(s, o, user, now);
    case DoPaymentTurn(o, user) => if o < |s.orders| { CheckActiveThins(s, s.orders[o].event, now); }
    case DoSweep(snapshot) => SweepThins(s, snapshot, now);
  }

  // Of what they cancel, only the slot's order can be CANCELLED already.
  lemma QuietExcess(s: State, step: Step, t: TypeId, now: Time)
    requires Enabled(s, step, now) && (step.DoStatus? || step.DoPaymentTurn? || step.DoSweep?)
    ensures Excess(s.orders, Gone(s, step, now), t) == Surplus(s, step, t, now)
  {
    if step.DoSweep? {
      NoExcess(s.orders, step.snapshot, t);
    } else if Gone(s, step, now) != [] {
      OneExcess(s.orders, Gone(s, step, now)[0], t);
    }
  }

  lemma OneExcess(orders: seq<Order>, o: OrderId, t: TypeId)
    ensures Excess(orders, [o], t) == if IsCancelled(orders, o) then Asked(orders[o].items, t) else 0
  {
    assert [o][1..] == [];
  }

  /** Exactly what a step does to counter plus live holdings of a type: nothing, or it adds the items of the
      CANCELLED order it hits again. */
  lemma TotalAfter(s: State, step: Step, t: TypeId, now: Time)
    requires Shape(s) && Sells(step) && Enabled(s, step, now) && t in s.stock.counter
    ensures TotalGrows(s, Apply(s, step, now), t, Surplus(s, step, t, now))
  {
    match step
    case DoCreate(req, fault) =>
      if Enters(s, step, now) {
        EnteredTotal(s, req, fault, t, now);
        if TimedOut(QueueOf(s, req.event), now) { OneExcess(s.orders, QueueOf(s, req.event).active.value, t); }
      } else {
        RefusedTotal(s, req, fault, t, now);
      }
    case DoPay(o) => PayTotal(s, o, t, now);
    case DoCancel(o) => CancelTotal(s, o, t, now);
    case DoUserCancel(o, user) =>
      UserCancelKeeps(s, o, user, now);
      CancelTotal(s, o, t, now);
    case _ =>
      QuietThins(s, step, now);
      QuietExcess(s, step, t, now);
      ThinsTotal(s, Apply(s, step, now), Gone(s, step, now), t);
  }

  /** No counter disappears, and each counter with what live orders hold adds up to what it did. */
  ghost predicate Balanced(s: State, s': State) {
    forall t :: t in s.stock.counter ==> TotalGrows(s, s', t, 0)
  }

  // None of the order's items is of a type that has a counter.
  ghost predicate Unkeyed(s: State, o: OrderId)
    requires o < |s.orders|
  {
    forall t :: t in s.stock.counter ==> Asked(s.orders[o].items, t) == 0
  }

  /** Counter plus live holdings of every type is the same after a step if and only if the step does not pay
      or cancel a CANCELLED order that has counted items, by itself or through a timeout. */
  lemma ConservationIff(s: State, step: Step, now: Time)
    requires Shape(s) && Sells(step) && Enabled(s, step, now)
    ensures Balanced(s, Apply(s, step, now)) <==>
            (Rehit(s, step, now).Some? ==> Unkeyed(s, Rehit(s, step, now).value))
  {
    forall t | t in s.stock.counter ensures TotalGrows(s, Apply(s, step, now), t, Surplus(s, step, t, now)) {
      TotalAfter(s, step, t, now);
    }
  }

  /** In a room whose invariant holds, timeouts only ever hit PENDING orders. */
  lemma TimeOutsHitPending(s: State, step: Step, now: Time)
    requires RoomOk(s) && !step.DoPay? && !step.DoCancel? && !step.DoUserCancel?
    ensures Rehit(s, step, now).None?
  {
    match step
    case DoCreate(req, fault) => assert LiveAt(s, req.event);
    case DoStatus(o, _) => if o < |s.orders| { assert LiveAt(s, s.orders[o].event); }
    case DoPaymentTurn(o, _) => if o < |s.orders| { assert LiveAt(s, s.orders[o].event); }
    case _ =>
  }

  predicate Selling(run: Run) {
    forall i :: 0 <= i < |run| ==> Sells(run[i].0)
  }

  function RunSurplus(s: State, run: Run, t: TypeId): nat
    decreases |run|
  {
    if run == [] then 0
    else Surplus(s, run[0].0, t, run[0].1) + RunSurplus(Apply(s, run[0].0, run[0].1), run[1..], t)
  }

  /** Over a whole run, counter plus live holdings grow by exactly what its steps create out of nothing. */
  lemma {:induction false} TotalOverRuns(s: State, run: Run, t: TypeId)
    requires Shape(s) && Selling(run) && Possible(s, run) && t in s.stock.counter
    ensures TotalGrows(s, Exec(s, run), t, RunSurplus(s, run, t))
    decreases |run|
  {
    if run != [] {
      assert Sells(run[0].0);
      TotalAfter(s, run[0].0, t, run[0].1);
      ShapeKept(s, run[0].0, run[0].1);
      TotalOverRuns(Apply(s, run[0].0, run[0].1), run[1..], t);
    }
  }

  // No step of the run hits a CANCELLED order again.
  ghost predicate Lawful(s: State, run: Run)
    decreases |run|
  {
    run == [] || (Rehit(s, run[0].0, run[0].1).None? && Lawful(Apply(s, run[0].0, run[0].1), run[1..]))
  }

  lemma {:induction false} LawfulCreatesNothing(s: State, run: Run, t: TypeId)
    requires Lawful(s, run)
    ensures RunSurplus(s, run, t) == 0
    decreases |run|
  {
    if run != [] { LawfulCreatesNothing(Apply(s, run[0].0, run[0].1), run[1..], t); }
  }

  /** So no quota is created or lost as long as no CANCELLED order is paid or cancelled again. */
  lemma ConservedOverRuns(s: State, run: Run)
    requires Shape(s) && Selling(run) && Possible(s, run) && Lawful(s, run)
    ensures Balanced(s, Exec(s, run))
  {
    forall t | t in s.stock.counter ensures TotalGrows(s, Exec(s, run), t, 0) {
      TotalOverRuns(s, run, t);
      LawfulCreatesNothing(s, run, t);
    }
  }
}
