/** Tickets: issued once per settled order, split as ordered, and never more than the quota. */
module Issuance {
  import opened Common
  import opened Sequences
  import opened Orders
  import opened Inventory
  import opened Machine
  import opened WaitingRoom
  import opened RoomTheorems
  import opened Sweeper
  import opened Conservation

  /** Every order that is PAID has exactly the tickets it asked for, every other order has none, and the
      total per type is what PAID orders asked for. */
  ghost predicate TicketsOk(s: State) {
    && (forall t: TypeId :: Issued(s.tickets, t) == PaidFor(s.orders, t))
    && (forall o: OrderId, t: TypeId :: IssuedTo(s.tickets, o, t) == Due(s.orders, o, t))
  }

  function Due(orders: seq<Order>, o: OrderId, t: TypeId): nat {
    if o < |orders| then PaidShare(orders[o], t) else 0
  }

  lemma ThinsIssued(s: State, s': State, gone: seq<OrderId>)
    requires Thins(s, s', gone)
    ensures TicketsOk(s) <==> TicketsOk(s')
  {
    forall t: TypeId ensures PaidFor(s'.orders, t) == PaidFor(s.orders, t) {
      ThinnedSums(s.orders, s'.orders, gone, t);
    }
    forall o: OrderId, t: TypeId ensures Due(s'.orders, o, t) == Due(s.orders, o, t) {
    }
  }

  // A new row that is not PAID owes nobody a ticket.
  lemma AppendIssued(s: State, s': State)
    requires TicketsOk(s) && s'.tickets == s.tickets
    requires s'.orders == s.orders || (|s'.orders| == |s.orders| + 1 && s'.orders == s.orders + [s'.orders[|s.orders|]]
                                       && !s'.orders[|s.orders|].status.Paid?)
    ensures TicketsOk(s')
  {
  }

  lemma CreateIssued(s: State, req: Request, fault: Fault, now: Time)
    requires Shape(s) && TicketsOk(s)
    ensures TicketsOk(Create(s, req, fault, now).0)
  {
    if Enters(s, DoCreate(req, fault), now) {
      var s1 := Admitted(s, req, now);
      EntersCase(s, req, fault, now);
      AppendIssued(s, s1);
      AppendKeeps(s, s1);
      EnqueueThins(s1, |s.orders|, req.event, now);
      ThinsIssued(s1, Create(s, req, fault, now).0, Late(s1, req.event, now));
    } else {
      RefusedCase(s, req, fault, now);
      AppendIssued(s, Create(s, req, fault, now).0);
    }
  }

  lemma PayIssued(s: State, o: OrderId, now: Time)
    requires Shape(s) && TicketsOk(s)
    ensures TicketsOk(Pay(s, o, now))
  {
    var s' := Pay(s, o, now);
    if o < |s.orders| && !s.orders[o].status.Paid? {
      PayShape(s, o, now);
      forall t: TypeId ensures Issued(s'.tickets, t) == PaidFor(s'.orders, t) {
        PayBooks(s, o, t, now);
        TicketsForCount(o, s.orders[o].items, o, t);
        IssuedAppend(s.tickets, TicketsFor(o, s.orders[o].items), o, t);
      }
      forall x: OrderId, t: TypeId ensures IssuedTo(s'.tickets, x, t) == Due(s'.orders, x, t) {
        TicketsForCount(o, s.orders[o].items, x, t);
        IssuedAppend(s.tickets, TicketsFor(o, s.orders[o].items), x, t);
        assert IssuedTo(s.tickets, x, t) == Due(s.orders, x, t);
      }
    }
  }

  /** A failed-payment notification for an order that is PAID. */
  predicate SpoilsPaid(s: State, step: Step) {
    step.DoCancel? && step.order < |s.orders| && s.orders[step.order].status.Paid?
  }

  lemma CancelIssuedIff(s: State, o: OrderId, now: Time)
    requires Shape(s) && TicketsOk(s)
    ensures TicketsOk(Cancel(s, o, now)) <==>
            (o < |s.orders| && s.orders[o].status.Paid? ==> s.orders[o].items == [])
  {
    if o < |s.orders| {
      var s', cancelled := Cancel(s, o, now), s.orders[o].(status := Cancelled);
      CancelShape(s, o, now);
      forall t: TypeId ensures PaidFor(s'.orders, t) == PaidFor(s.orders, t) - PaidShare(s.orders[o], t) {
        HeldUpdate(s.orders, o, cancelled, t);
        HeldSame(s.orders[o := cancelled], s'.orders, t);
      }
      forall x: OrderId, t: TypeId
        ensures Due(s'.orders, x, t) == if x == o then 0 else Due(s.orders, x, t)
      {
      }
      if s.orders[o].status.Paid? && s.orders[o].items != [] {
        var t := s.orders[o].items[0].ticketType;
        assert IssuedTo(s'.tickets, o, t) == Due(s.orders, o, t) > Due(s'.orders, o, t);
        assert !TicketsOk(s');
      } else {
        assert forall t: TypeId :: PaidShare(s.orders[o], t) == 0;
        assert forall x: OrderId, t: TypeId :: IssuedTo(s'.tickets, x, t) == Due(s'.orders, x, t);
      }
    }
  }

  /** However often success notifications are replayed, tickets match what is PAID after every step, except
      exactly after a failed-payment notification for a PAID order with items. */
  lemma IssuanceIff(s: State, step: Step, now: Time)
    requires Shape(s) && TicketsOk(s) && Enabled(s, step, now)
    ensures TicketsOk(Apply(s, step, now)) <==>
            (SpoilsPaid(s, step) ==> s.orders[step.order].items == [])
  {
    match step
    case DoCreate(req, fault) => CreateIssued(s, req, fault, now);
    case DoPay(o) => PayIssued(s, o, now);
    case DoCancel(o) => CancelIssuedIff(s, o, now);
    case DoUserCancel(o, user) =>
      if MaySee(s, o, user) && !s.orders[o].status.Paid? {
        CancelIssuedIff(s, o, now);
        UserCancelKeeps(s, o, user, now);
        assert TicketsOk(Cancel(s, o, now));
      }
    case DoOrganize(_) => AppendIssued(s, Apply(s, step, now));
    case _ => QuietThins(s, step, now); ThinsIssued(s, Apply(s, step, now), Gone(s, step, now));
  }

  // No settled order of the run is cancelled afterwards.
  ghost predicate Settles(s: State, run: Run)
    decreases |run|
  {
    run == [] || (!SpoilsPaid(s, run[0].0) && Settles(Apply(s, run[0].0, run[0].1), run[1..]))
  }

  lemma {:induction false} IssuedOverRuns(s: State, run: Run)
    requires Shape(s) && TicketsOk(s) && Possible(s, run) && Settles(s, run)
    ensures TicketsOk(Exec(s, run))
    decreases |run|
  {
    if run != [] {
      ShapeKept(s, run[0].0, run[0].1);
      IssuanceIff(s, run[0].0, run[0].1);
      IssuedOverRuns(Apply(s, run[0].0, run[0].1), run[1..]);
    }
  }

  // ---- the counter against its row, and the quota ----

  /** The counter refines the row, and the row counts at least what live orders hold. */
  ghost predicate Backed(s: State) {
    Refines(s.stock) && forall t :: t in s.stock.rows ==> Held(s.orders, t) <= s.stock.rows[t].sold
  }

  lemma ThinsBacked(s: State, s': State, gone: seq<OrderId>)
    requires Thins(s, s', gone) && Backed(s) && forall o :: o in gone ==> !IsCancelled(s.orders, o)
    ensures Backed(s')
  {
    var items := ItemsOf(s.orders, gone);
    forall t | t in s.stock.rows
      ensures Asked(items, t) <= Held(s.orders, t) && Held(s'.orders, t) == Held(s.orders, t) - Asked(items, t)
    {
      ThinnedSums(s.orders, s'.orders, gone, t);
      NoExcess(s.orders, gone, t);
    }
    ReleaseAllRows(s.stock, items);
  }

  /** A reservation that is not kept leaves every counter as it was, or a missing one loaded from its row; and
      it leaves the rows as they were unless the row never counted it: then the release takes from the row
      what others have bought. */
  lemma UnkeptLeavesStock(st: Stock, t: TypeId, n: Quantity, now: Time)
    ensures var end := Unkept(st, t, n, now);
            && (end.counter == st.counter
                || (t !in st.counter && t in st.rows && end.counter == st.counter[t := Available(st.rows[t])]))
            && end.rows == if TakenUncounted(st, t, n, now) && n <= st.rows[t].sold
                           then st.rows[t := st.rows[t].(sold := st.rows[t].sold - n)] else st.rows
  {
    if Reserve(st, t, n, now).1.Reserved? { ReleaseUndoesReserve(st, t, n, now); }
  }

  lemma UnkeptRefined(st: Stock, t: TypeId, n: Quantity, now: Time)
    requires Refines(st) && Objection(st, t, now).None?
    ensures Unkept(st, t, n, now).rows == st.rows && Refines(Unkept(st, t, n, now))
  {
    UnkeptLeavesStock(st, t, n, now);
  }

  lemma AdmittedParts(s: State, req: Request, now: Time)
    ensures var s1 := Admitted(s, req, now);
            && s1.orders == s.orders + [NewOrder(req, Pending, [Item(req.ticketType, req.quantity)], now)]
            && s1.stock == Reserve(s.stock, req.ticketType, req.quantity, now).0
  {
  }

  lemma AdmittedHeld(s: State, req: Request, t: TypeId, now: Time)
    ensures Held(Admitted(s, req, now).orders, t) ==
            Held(s.orders, t) + (if t == req.ticketType then req.quantity else 0)
  {
    AdmittedParts(s, req, now);
    HeldAppend(s.orders, NewOrder(req, Pending, [Item(req.ticketType, req.quantity)], now), t);
    AskedOne(Item(req.ticketType, req.quantity), t);
  }

  lemma AdmittedBacked(s: State, req: Request, now: Time)
    requires Backed(s) && Objection(s.stock, req.ticketType, now).None?
    requires Reserve(s.stock, req.ticketType, req.quantity, now).1.Reserved?
    ensures Backed(Admitted(s, req, now))
  {
    var s1 := Admitted(s, req, now);
    AdmittedParts(s, req, now);
    ScriptNeverOutrunsRow(s.stock, req.ticketType, req.quantity, now);
    forall t | t in s1.stock.rows ensures Held(s1.orders, t) <= s1.stock.rows[t].sold {
      AdmittedHeld(s, req, t, now);
      OtherRowsSame(s.stock, req.ticketType, req.quantity, t, now);
    }
  }

  lemma OtherRowsSame(st: Stock, t: TypeId, n: Quantity, u: TypeId, now: Time)
    ensures var st' := Reserve(st, t, n, now).0;
            (u in st'.rows <==> u in st.rows) && (u != t && u in st.rows ==> st'.rows[u] == st.rows[u])
  {
  }

  lemma RefusedBacked(s: State, req: Request, fault: Fault, now: Time)
    requires Backed(s) && !Enters(s, DoCreate(req, fault), now)
    ensures Backed(Create(s, req, fault, now).0)
  {
    RefusedCase(s, req, fault, now);
    FailedCreateStock(s, req, fault, now);
    if Objection(s.stock, req.ticketType, now).None? {
      UnkeptRefined(s.stock, req.ticketType, req.quantity, now);
    }
    forall t { HeldAppend(s.orders, NewOrder(req, Cancelled, [], now), t); }
  }

  lemma CancelBacked(s: State, o: OrderId, now: Time)
    requires Shape(s) && Backed(s) && (o < |s.orders| ==> !s.orders[o].status.Cancelled?)
    ensures Backed(Cancel(s, o, now))
  {
    if o < |s.orders| {
      var s', cancelled := Cancel(s, o, now), s.orders[o].(status := Cancelled);
      CancelShape(s, o, now);
      forall t | t in s.stock.rows
        ensures Asked(s.orders[o].items, t) <= Held(s.orders, t)
        ensures Held(s'.orders, t) == Held(s.orders, t) - Asked(s.orders[o].items, t)
      {
        ShareWithinHeld(s.orders, o, t);
        HeldUpdate(s.orders, o, cancelled, t);
        HeldSame(s.orders[o := cancelled], s'.orders, t);
      }
      ReleaseAllRows(s.stock, s.orders[o].items);
    }
  }

  lemma PayBacked(s: State, o: OrderId, now: Time)
    requires Shape(s) && Backed(s) && !IsCancelled(s.orders, o)
    ensures Backed(Pay(s, o, now))
  {
    if o < |s.orders| && !s.orders[o].status.Paid? {
      PayShape(s, o, now);
      forall t { PayBooks(s, o, t, now); }
    }
  }

  // Unless the slot's order is hit again, queries, turns and sweeps cancel no CANCELLED order.
  lemma QuietGoneLive(s: State, step: Step, now: Time)
    requires Enabled(s, step, now) && (step.DoStatus? || step.DoPaymentTurn? || step.DoSweep?)
    ensures Rehit(s, step, now).None? ==> forall o :: o in Gone(s, step, now) ==> !IsCancelled(s.orders, o)
    ensures Rehit(s, step, now).Some? ==> Gone(s, step, now) == [Rehit(s, step, now).value]
  {
  }

  // ---- a CANCELLED order hit again ----

  // What is left of `sold` when the row gives up item by item, each as long as it can.
  function SoldAfter(sold: nat, items: seq<Item>, t: TypeId): (left: nat)
    ensures left <= sold
    decreases |items|
  {
    if items == [] then sold
    else
      var n := items[0].quantity;
      SoldAfter(if items[0].ticketType == t && n <= sold then sold - n else sold, items[1..], t)
  }

  lemma {:induction false} ReleaseAllExact(st: Stock, items: seq<Item>, t: TypeId)
    ensures var st' := ReleaseAll(st, items);
            && (t in st'.rows <==> t in st.rows)
            && (t in st.rows ==> st'.rows[t] == st.rows[t].(sold := SoldAfter(st.rows[t].sold, items, t)))
    decreases |items|
  {
    if items != [] { ReleaseAllExact(Release(st, items[0].ticketType, items[0].quantity), items[1..], t); }
  }

  /** The row of `t` has room for the items to be given back once more: it still counts what live orders hold,
      and the counter, with the items, stays within what it then has left. */
  predicate ReleaseFits(s: State, items: seq<Item>, t: TypeId)
    requires t in s.stock.rows
  {
    var row := s.stock.rows[t];
    var left := SoldAfter(row.sold, items, t);
    && Held(s.orders, t) <= left
    && (t in s.stock.counter ==> s.stock.counter[t] + Asked(items, t) <= row.quantity - left)
  }

  /** For an order of one item: either the row counts that much more than live orders hold, or it counts less
      than the item and the counter lags behind it by as much. */
  lemma OneItemFits(s: State, t: TypeId, n: Quantity)
    requires Backed(s) && t in s.stock.rows
    ensures var row := s.stock.rows[t];
            ReleaseFits(s, [Item(t, n)], t) <==>
            if n <= row.sold then Held(s.orders, t) + n <= row.sold
            else t in s.stock.counter ==> s.stock.counter[t] + n <= row.quantity - row.sold
    ensures forall u :: u in s.stock.rows && u != t ==> ReleaseFits(s, [Item(t, n)], u)
  {
    forall u | u in s.stock.rows
      ensures SoldAfter(s.stock.rows[u].sold, [Item(t, n)], u) ==
              if u == t && n <= s.stock.rows[u].sold then s.stock.rows[u].sold - n else s.stock.rows[u].sold
      ensures Asked([Item(t, n)], u) == if u == t then n else 0
    {
      OneItemLeft(s.stock.rows[u].sold, Item(t, n), u);
      AskedOne(Item(t, n), u);
    }
  }

  lemma OneItemLeft(sold: nat, item: Item, t: TypeId)
    ensures SoldAfter(sold, [item], t) ==
            if item.ticketType == t && item.quantity <= sold then sold - item.quantity else sold
  {
    assert [item][1..] == [];
  }

  /** The rows have room for this order to be paid, or cancelled, once more. */
  ghost predicate HitFits(s: State, o: OrderId, pays: bool)
    requires o < |s.orders|
  {
    forall t :: t in s.stock.rows ==>
      if pays then Held(s.orders, t) + Asked(s.orders[o].items, t) <= s.stock.rows[t].sold
      else ReleaseFits(s, s.orders[o].items, t)
  }

  // The items are given back and nothing else changes in the books.
  lemma ReleasedBackedIff(s: State, s': State, o: OrderId)
    requires Backed(s) && o < |s.orders| && s'.stock == ReleaseAll(s.stock, s.orders[o].items)
    requires forall t: TypeId :: Held(s'.orders, t) == Held(s.orders, t)
    ensures Backed(s') <==> HitFits(s, o, false)
  {
    var items := s.orders[o].items;
    forall t: TypeId
      ensures t in s'.stock.rows <==> t in s.stock.rows
      ensures t in s.stock.rows ==>
                s'.stock.rows[t] == s.stock.rows[t].(sold := SoldAfter(s.stock.rows[t].sold, items, t))
      ensures t in s'.stock.counter <==> t in s.stock.counter
      ensures t in s.stock.counter ==> s'.stock.counter[t] == s.stock.counter[t] + Asked(items, t)
    {
      ReleaseAllExact(s.stock, items, t);
      ReleaseAllCounter(s.stock, items, t);
    }
  }

  lemma CancelBackedIff(s: State, o: OrderId, now: Time)
    requires Shape(s) && Backed(s)
    ensures Backed(Cancel(s, o, now)) <==> (IsCancelled(s.orders, o) ==> HitFits(s, o, false))
  {
    if !IsCancelled(s.orders, o) {
      CancelBacked(s, o, now);
    } else {
      CancelShape(s, o, now);
      forall t: TypeId { HeldSame(s.orders, Cancel(s, o, now).orders, t); }
      ReleasedBackedIff(s, Cancel(s, o, now), o);
    }
  }

  lemma PayBackedIff(s: State, o: OrderId, now: Time)
    requires Shape(s) && Backed(s)
    ensures Backed(Pay(s, o, now)) <==> (IsCancelled(s.orders, o) ==> HitFits(s, o, true))
  {
    if !IsCancelled(s.orders, o) {
      PayBacked(s, o, now);
    } else {
      PayShape(s, o, now);
      forall t: TypeId { PayBooks(s, o, t, now); }
    }
  }

  lemma ThinsHitIff(s: State, s': State, o: OrderId)
    requires Thins(s, s', [o]) && Backed(s) && IsCancelled(s.orders, o)
    ensures Backed(s') <==> HitFits(s, o, false)
  {
    OneItemList(s.orders, o);
    forall t: TypeId ensures Held(s'.orders, t) == Held(s.orders, t) {
      ThinnedSums(s.orders, s'.orders, [o], t);
      OneExcess(s.orders, o, t);
    }
    ReleasedBackedIff(s, s', o);
  }

  lemma EnqueueBackedIff(s: State, o: OrderId, e: EventId, now: Time)
    requires Shape(s) && Backed(s)
    ensures var q := QueueOf(s, e);
            Backed(Enqueue(s, o, e, now)) <==>
            (TimedOut(q, now) && IsCancelled(s.orders, q.active.value) ==> HitFits(s, q.active.value, false))
  {
    var q := QueueOf(s, e);
    EnqueueThins(s, o, e, now);
    if TimedOut(q, now) && IsCancelled(s.orders, q.active.value) {
      ThinsHitIff(s, Enqueue(s, o, e, now), q.active.value);
    } else {
      ThinsBacked(s, Enqueue(s, o, e, now), Late(s, e, now));
    }
  }

  // The state in which a step hits a CANCELLED order: an order creation has taken its own stock by then.
  function HitAt(s: State, step: Step, now: Time): (r: State)
    ensures |s.orders| <= |r.orders|
  {
    if Enters(s, step, now) then Admitted(s, step.request, now) else s
  }

  lemma CreateBackedIff(s: State, req: Request, fault: Fault, now: Time)
    requires Shape(s) && Backed(s)
    ensures var step := DoCreate(req, fault);
            var hit := Rehit(s, step, now);
            Backed(Create(s, req, fault, now).0) <==> (hit.Some? ==> HitFits(HitAt(s, step, now), hit.value, false))
  {
    if Enters(s, DoCreate(req, fault), now) {
      EntersCase(s, req, fault, now);
      AdmittedBacked(s, req, now);
      AppendKeeps(s, Admitted(s, req, now));
      assert QueueOk(s.orders, QueueOf(s, req.event), req.event);
      EnqueueBackedIff(Admitted(s, req, now), |s.orders|, req.event, now);
    } else {
      RefusedBacked(s, req, fault, now);
    }
  }

  lemma QuietBackedIff(s: State, step: Step, now: Time)
    requires Shape(s) && Backed(s) && Enabled(s, step, now)
    requires step.DoStatus? || step.DoPaymentTurn? || step.DoSweep?
    ensures var hit := Rehit(s, step, now);
            Backed(Apply(s, step, now)) <==> (hit.Some? ==> HitFits(s, hit.value, false))
  {
    QuietThins(s, step, now);
    QuietGoneLive(s, step, now);
    if Rehit(s, step, now).Some? {
      ThinsHitIff(s, Apply(s, step, now), Rehit(s, step, now).value);
    } else {
      ThinsBacked(s, Apply(s, step, now), Gone(s, step, now));
    }
  }

  /** A quota set below what is sold. */
  predicate Undercuts(s: State, step: Step) {
    step.DoOrganize? && step.change.ChangeType? && step.change.ticketType in s.stock.rows
    && step.change.quantity < s.stock.rows[step.change.ticketType].sold
  }

  lemma UpdateEventKeeps(st: Stock, e: EventId, published: bool, eventEnd: Time)
    requires Refines(st)
    ensures var st' := UpdateEvent(st, e, published, eventEnd);
            Refines(st') && st'.rows.Keys == st.rows.Keys
            && forall t :: t in st.rows ==> st'.rows[t].sold == st.rows[t].sold
  {
    var st1 := UpdateEvent(st, e, false, eventEnd);
    var st2 := st.(rows := map t | t in st.rows ::
                     if st.rows[t].event == e then st.rows[t].(published := published, eventEnd := eventEnd)
                     else st.rows[t]);
    assert Refines(st1) && Refines(st2);
    PrewarmKeepsRefines(st2, e);
  }

  lemma ChangeTypeBackedIff(s: State, change: Change, now: Time)
    requires Backed(s) && change.ChangeType?
    ensures Backed(Apply(s, DoOrganize(change), now)) <==> !Undercuts(s, DoOrganize(change))
  {
    var t := change.ticketType;
    if t in s.stock.rows {
      UpdateKeepsRefinesIff(s.stock, t, change.quantity, change.saleStart, change.saleEnd, now);
    }
  }

  lemma OrganizeBackedIff(s: State, change: Change, now: Time)
    requires Backed(s) && Enabled(s, DoOrganize(change), now)
    ensures Backed(Apply(s, DoOrganize(change), now)) <==> !Undercuts(s, DoOrganize(change))
  {
    match change
    case ChangeType(_, _, _, _) => ChangeTypeBackedIff(s, change, now);
    case Warm(e) => PrewarmKeepsRefines(s.stock, e);
    case AddType(t, row) =>
    case DropType(_) =>
    case ChangeEvent(e, published, eventEnd) => UpdateEventKeeps(s.stock, e, published, eventEnd);
    case DropEvent(_) =>
  }

  /** No quota is set below `sold`, and the rows have room for a CANCELLED order that is hit again. */
  ghost predicate Bearable(s: State, step: Step, now: Time) {
    var hit := Rehit(s, step, now);
    && !Undercuts(s, step)
    && (hit.Some? ==> HitFits(HitAt(s, step, now), hit.value, step.DoPay?))
  }

  /** The organizer's steps included: the counter goes on refining a row that counts what live orders hold, if
      and only if the step sets no quota below `sold` and hits no CANCELLED order that the rows have no room
      for. */
  lemma BackedKeptIff(s: State, step: Step, now: Time)
    requires Shape(s) && Backed(s) && Enabled(s, step, now)
    ensures Backed(Apply(s, step, now)) <==> Bearable(s, step, now)
  {
    match step
    case DoCreate(req, fault) => CreateBackedIff(s, req, fault, now);
    case DoPay(o) => PayBackedIff(s, o, now);
    case DoCancel(o) => CancelBackedIff(s, o, now);
    case DoUserCancel(o, user) =>
      UserCancelKeeps(s, o, user, now);
      CancelBackedIff(s, o, now);
    case DoOrganize(change) => OrganizeBackedIff(s, change, now);
    case _ => QuietBackedIff(s, step, now);
  }

  // Every step of the run is bearable.
  ghost predicate Careful(s: State, run: Run)
    decreases |run|
  {
    run == [] || (Bearable(s, run[0].0, run[0].1) && Careful(Apply(s, run[0].0, run[0].1), run[1..]))
  }

  lemma {:induction false} BackedOverRuns(s: State, run: Run)
    requires Shape(s) && Backed(s) && Possible(s, run) && Careful(s, run)
    ensures Backed(Exec(s, run))
    decreases |run|
  {
    if run != [] {
      ShapeKept(s, run[0].0, run[0].1);
      BackedKeptIff(s, run[0].0, run[0].1);
      BackedOverRuns(Apply(s, run[0].0, run[0].1), run[1..]);
    }
  }

  /** No overselling: after any such run, whatever organizers did to their events and ticket types in
      between, the tickets issued for a type are at most what its row counts as sold, which is
      at most its quota; and the counter offers no more than what is left. */
  lemma NoOverselling(s: State, run: Run, t: TypeId)
    requires Shape(s) && Backed(s) && TicketsOk(s) && Possible(s, run)
    requires Careful(s, run) && Settles(s, run)
    requires t in Exec(s, run).stock.rows
    ensures var s' := Exec(s, run);
            && Issued(s'.tickets, t) <= s'.stock.rows[t].sold <= s'.stock.rows[t].quantity
            && (t in s'.stock.counter ==>
                  Issued(s'.tickets, t) + s'.stock.counter[t] <= s'.stock.rows[t].quantity)
  {
    BackedOverRuns(s, run);
    IssuedOverRuns(s, run);
    PaidWithinHeld(Exec(s, run).orders, t);
  }

  ghost predicate NonNegative(st: Stock) {
    forall t :: t in st.counter ==> 0 <= st.counter[t]
  }

  lemma ReleasedNonNegative(st: Stock, items: seq<Item>)
    requires NonNegative(st)
    ensures NonNegative(ReleaseAll(st, items))
  {
    forall t { ReleaseAllCounter(st, items, t); }
  }

  lemma CancelNonNegative(s: State, o: OrderId, now: Time)
    requires NonNegative(s.stock)
    ensures NonNegative(Cancel(s, o, now).stock)
  {
    if o < |s.orders| { ReleasedNonNegative(s.stock, s.orders[o].items); }
  }

  lemma TimeOutNonNegative(s: State, e: EventId, o: OrderId, now: Time)
    requires NonNegative(s.stock)
    ensures NonNegative(TimeOut(s, e, o, now).stock)
  {
    CancelNonNegative(s, o, now);
  }

  lemma {:induction false} SweepNonNegative(s: State, snapshot: seq<OrderId>, now: Time)
    requires NonNegative(s.stock)
    ensures NonNegative(Sweep(s, snapshot, now).stock)
    decreases |snapshot|
  {
    if snapshot != [] {
      CancelNonNegative(s, snapshot[0], now);
      SweepNonNegative(Cancel(s, snapshot[0], now), snapshot[1..], now);
    }
  }

  lemma CheckActiveNonNegative(s: State, e: EventId, now: Time)
    requires NonNegative(s.stock)
    ensures NonNegative(CheckActive(s, e, now).stock)
  {
    if QueueOf(s, e).active.Some? { TimeOutNonNegative(s, e, QueueOf(s, e).active.value, now); }
  }

  lemma PlaceNonNegative(s: State, e: EventId, o: OrderId, now: Time)
    requires NonNegative(s.stock)
    ensures NonNegative(Place(s, e, o, now).0.stock)
  {
    if QueueOf(s, e).active == Some(o) { TimeOutNonNegative(s, e, o, now); }
  }

  lemma StatusNonNegative(s: State, o: OrderId, user: Option<UserId>, now: Time)
    requires NonNegative(s.stock)
    ensures NonNegative(AskStatus(s, o, user, now).0.stock)
  {
    if MaySee(s, o, user) && IsPending(s.orders, o) {
      var e := s.orders[o].event;
      if now > s.orders[o].expiresAt {
        TimeOutNonNegative(s, e, o, now);
      } else {
        CheckActiveNonNegative(s, e, now);
        PlaceNonNegative(CheckActive(s, e, now), e, o, now);
      }
    }
  }

  lemma ReserveNonNegative(st: Stock, t: TypeId, n: Quantity, now: Time)
    requires NonNegative(st)
    ensures NonNegative(Reserve(st, t, n, now).0) && NonNegative(Unkept(st, t, n, now))
  {
  }

  lemma EnqueueNonNegative(s: State, o: OrderId, e: EventId, now: Time)
    requires NonNegative(s.stock)
    ensures NonNegative(Enqueue(s, o, e, now).stock)
  {
    EnqueueCases(s, o, e, now);
    if QueueOf(s, e).active.Some? { TimeOutNonNegative(s, e, QueueOf(s, e).active.value, now); }
  }

  lemma CreateNonNegative(s: State, req: Request, fault: Fault, now: Time)
    requires NonNegative(s.stock)
    ensures NonNegative(Create(s, req, fault, now).0.stock)
  {
    ReserveNonNegative(s.stock, req.ticketType, req.quantity, now);
    if Enters(s, DoCreate(req, fault), now) {
      EntersCase(s, req, fault, now);
      EnqueueNonNegative(Admitted(s, req, now), |s.orders|, req.event, now);
    } else {
      FailedCreateStock(s, req, fault, now);
    }
  }

  lemma OrganizeNonNegative(st: Stock, change: Change, now: Time)
    requires NonNegative(st)
    ensures NonNegative(Organize(st, change, now))
  {
  }

  /** The counter never drops below zero, whatever the state and the step. */
  lemma StepNonNegative(s: State, step: Step, now: Time)
    requires NonNegative(s.stock)
    ensures NonNegative(Apply(s, step, now).stock)
  {
    match step
    case DoCreate(req, fault) => CreateNonNegative(s, req, fault, now);
    case DoPay(_) =>
    case DoCancel(o) => CancelNonNegative(s, o, now);
    case DoUserCancel(o, _) => CancelNonNegative(s, o, now);
    case DoStatus(o, user) => StatusNonNegative(s, o, user, now);
    case DoPaymentTurn(o, _) => if o < |s.orders| { CheckActiveNonNegative(s, s.orders[o].event, now); }
    case DoSweep(snapshot) => SweepNonNegative(s, snapshot, now);
    case DoOrganize(change) => OrganizeNonNegative(s.stock, change, now);
  }

  lemma {:induction false} NonNegativeOverRuns(s: State, run: Run)
    requires NonNegative(s.stock)
    ensures NonNegative(Exec(s, run).stock)
    decreases |run|
  {
    if run != [] {
      StepNonNegative(s, run[0].0, run[0].1);
      NonNegativeOverRuns(Apply(s, run[0].0, run[0].1), run[1..]);
    }
  }

  /** No overselling from the counter alone, whatever the row says: while ticket-service sells, live orders
      and tickets of a type never exceed the counter and holdings the run started with. */
  lemma CounterBoundsTickets(s: State, run: Run, t: TypeId)
    requires Shape(s) && TicketsOk(s) && NonNegative(s.stock)
    requires Selling(run) && Possible(s, run) && Lawful(s, run) && Settles(s, run)
    requires t in s.stock.counter
    ensures Issued(Exec(s, run).tickets, t) <= Held(Exec(s, run).orders, t) <= Total(s, t)
  {
    ConservedOverRuns(s, run);
    NonNegativeOverRuns(s, run);
    IssuedOverRuns(s, run);
    PaidWithinHeld(Exec(s, run).orders, t);
  }
}
