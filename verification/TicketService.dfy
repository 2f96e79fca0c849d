/** ticket-service as it runs: tables and Redis keys updated in place, method by method. */
module TicketServices {
  import opened Common
  import opened Sequences
  import opened Orders
  import opened Inventory
  import opened StockKeeping
  import opened Machine

  // One LPOP: a dead entry makes no difference to the advance, a PENDING one is what it promotes.
  lemma PopStep(s: State, e: EventId, now: Time)
    requires QueueOf(s, e).waiting != []
    ensures var q := QueueOf(s, e);
            var popped := s.(queues := s.queues[e := q.(waiting := q.waiting[1..])]);
            Advance(s, e, now) == if IsPending(s.orders, q.waiting[0]) then Promote(popped, e, q.waiting[0], now)
                                  else Advance(popped, e, now)
  {
    var q := QueueOf(s, e);
    var popped := s.(queues := s.queues[e := q.(waiting := q.waiting[1..])]);
    if !IsPending(s.orders, q.waiting[0]) {
      var k := FirstPending(s.orders, q.waiting);
      assert k < |q.waiting| ==> q.waiting[1..][k..] == q.waiting[k + 1..];
      assert Advance(s, e, now).queues == Advance(popped, e, now).queues;
    } else {
      assert Advance(s, e, now).queues == Promote(popped, e, q.waiting[0], now).queues;
    }
  }

  class TicketService {
    var orders: seq<Order>
    var queues: map<EventId, Queue>
    var tickets: seq<Ticket>
    var tokens: map<Key, Token>
    const inventory: StockKeeper

    ghost function Snapshot(): State
      reads this, inventory
    {
      State(orders, queues, inventory.Value(), tickets, tokens)
    }

    constructor (inventory: StockKeeper)
      ensures Snapshot() == State([], map[], inventory.Value(), [], map[])
      ensures this.inventory == inventory
    {
      orders, queues, tickets, tokens := [], map[], [], map[];
      this.inventory := inventory;
    }

    function Keys(e: EventId): Queue
      reads this`queues
    {
      if e in queues then queues[e] else EMPTY_QUEUE
    }

    method SetExpiry(o: OrderId, t: Time)
      modifies this`orders
      ensures Snapshot() == WithExpiry(old(Snapshot()), o, t)
    {
      if o < |orders| { orders := orders[o := orders[o].(expiresAt := t)]; }
    }

    method MakeActive(e: EventId, o: OrderId, now: Time)
      modifies this`orders, this`queues
      ensures Snapshot() == Promote(old(Snapshot()), e, o, now)
    {
      var expiresAt := now + LEASE;
      queues := queues[e := Queue(Some(o), Unix(expiresAt), Keys(e).waiting)];
      SetExpiry(o, expiresAt);
    }

    method PushWaiting(e: EventId, o: OrderId, now: Time)
      modifies this`orders, this`queues
      ensures Snapshot() == Push(old(Snapshot()), e, o, now)
    {
      queues := queues[e := Keys(e).(waiting := Keys(e).waiting + [o])];
      SetExpiry(o, now + WAITING_BUFFER);
    }

    // Pops until an order is promoted or the list is empty; dead entries are dropped on the way.
    method AdvanceQueue(e: EventId, now: Time) returns (promoted: Option<OrderId>)
      modifies this`orders, this`queues
      ensures Snapshot() == Advance(old(Snapshot()), e, now)
      ensures promoted == Keys(e).active
      ensures promoted.Some? ==> IsPending(old(orders), promoted.value)
    {
      while |Keys(e).waiting| > 0
        invariant orders == old(orders)
        invariant Advance(Snapshot(), e, now) == Advance(old(Snapshot()), e, now)
        decreases |Keys(e).waiting|
      {
        var next := Keys(e).waiting[0];
        ghost var before := Snapshot();
        queues := queues[e := Keys(e).(waiting := Keys(e).waiting[1..])];
        PopStep(before, e, now);
        if next < |orders| && orders[next].status.Pending? {
          MakeActive(e, next, now);
          return Some(next);
        }
      }
      queues := queues[e := EMPTY_QUEUE];
      return None;
    }

    method ReleaseItems(items: seq<Item>)
      modifies inventory
      ensures inventory.Value() == ReleaseAll(old(inventory.Value()), items)
    {
      var i := 0;
      while i < |items|
        invariant i <= |items|
        invariant ReleaseAll(inventory.Value(), items[i..]) == ReleaseAll(old(inventory.Value()), items)
      {
        inventory.ReleaseTicketStock(items[i].ticketType, items[i].quantity);
        assert items[i..][1..] == items[i + 1..];
        i := i + 1;
      }
    }

    method CancelOrder(o: OrderId, now: Time) returns (found: bool)
      modifies this`orders, this`queues, inventory
      ensures found == (o < |old(orders)|)
      ensures Snapshot() == Cancel(old(Snapshot()), o, now)
    {
      if o >= |orders| { return false; }
      var order := orders[o];
      orders := orders[o := order.(status := Cancelled)];
      ReleaseItems(order.items);
      if Keys(order.event).active == Some(o) {
        var _ := AdvanceQueue(order.event, now);
      } else {
        queues := queues[order.event := Keys(order.event).(waiting := Without(Keys(order.event).waiting, o))];
      }
      return true;
    }

    // The recursion runs at most once more: after the two advances nothing has timed out.
    method EnqueueOrder(o: OrderId, e: EventId, now: Time) returns (status: QueueStatus)
      modifies this`orders, this`queues, inventory
      ensures Snapshot() == Enqueue(old(Snapshot()), o, e, now)
      ensures status.Active? || status.Waiting?
      ensures status.Active? ==> status.secondsRemaining == 180 && Keys(e).active == Some(o)
      ensures status.Waiting? ==> |Keys(e).waiting| > 0 && Keys(e).waiting[|Keys(e).waiting| - 1] == o
                                  && status.position == |Keys(e).waiting| + 1
      decreases TimedOut(Keys(e), now)
    {
      if Keys(e).active.None? {
        MakeActive(e, o, now);
        return Active(180);
      }
      if Keys(e).lease > 0 && Unix(now) > Keys(e).lease {
        var _ := CancelOrder(Keys(e).active.value, now);
        var _ := AdvanceQueue(e, now);
        status := EnqueueOrder(o, e, now);
        return;
      }
      PushWaiting(e, o, now);
      return Waiting(|Keys(e).waiting| + 1);
    }

    method CheckAndAdvanceExpiredActive(e: EventId, now: Time)
      modifies this`orders, this`queues, inventory
      ensures Snapshot() == CheckActive(old(Snapshot()), e, now)
    {
      if Keys(e).active.None? {
        if |Keys(e).waiting| > 0 { var _ := AdvanceQueue(e, now); }
        return;
      }
      if Keys(e).lease > 0 && Unix(now) >= Keys(e).lease {
        var _ := CancelOrder(Keys(e).active.value, now);
        var _ := AdvanceQueue(e, now);
      }
    }

    // The position of an order in the waiting list, or -1.
    method FindWaiting(w: seq<OrderId>, o: OrderId) returns (index: int)
      ensures o in w ==> index == |Before(w, o)|
      ensures o !in w ==> index == -1
    {
      index := 0;
      while index < |w|
        invariant 0 <= index <= |w| && o !in w[..index]
        invariant |Before(w, o)| == index + |Before(w[index..], o)|
      {
        if w[index] == o { return; }
        assert w[index..][1..] == w[index + 1..];
        index := index + 1;
      }
      assert w[..|w|] == w;
      index := -1;
    }

    method GetOrderQueueStatus(o: OrderId, user: Option<UserId>, now: Time) returns (r: Result<QueueStatus, Error>)
      modifies this`orders, this`queues, inventory
      ensures (Snapshot(), r) == AskStatus(old(Snapshot()), o, user, now)
    {
      if o >= |orders| { return Failure(OrderNotFound); }
      var order := orders[o];
      if user.Some? && order.user != user.value { return Failure(AccessDenied); }
      if order.status.Paid? { return Success(Completed); }
      if order.status.Cancelled? { return Success(WasCancelled); }
      if now > order.expiresAt {
        var _ := CancelOrder(o, now);
        var _ := AdvanceQueue(order.event, now);
        return Success(Expired);
      }
      CheckAndAdvanceExpiredActive(order.event, now);
      r := PlaceOrder(order.event, o, now);
    }

    method PlaceOrder(e: EventId, o: OrderId, now: Time) returns (r: Result<QueueStatus, Error>)
      modifies this`orders, this`queues, inventory
      ensures (Snapshot(), r) == Place(old(Snapshot()), e, o, now)
    {
      var active := Keys(e).active;
      if active == Some(o) {
        var rem: int := Keys(e).lease - Unix(now);
        if rem <= 0 {
          var _ := CancelOrder(o, now);
          var _ := AdvanceQueue(e, now);
          return Success(Expired);
        }
        return Success(Active(rem));
      }
      var index := FindWaiting(Keys(e).waiting, o);
      if index >= 0 { return Success(Waiting(index + 2)); }
      if active.None? {
        MakeActive(e, o, now);
        return Success(Active(180));
      }
      PushWaiting(e, o, now);
      return Success(Waiting(|Keys(e).waiting| + 1));
    }

    method CancelOrderInQueue(o: OrderId, user: Option<UserId>, now: Time) returns (r: Result<(), Error>)
      modifies this`orders, this`queues, inventory
      ensures (Snapshot(), r) == UserCancel(old(Snapshot()), o, user, now)
    {
      if o >= |orders| { return Failure(OrderNotFound); }
      var order := orders[o];
      if user.Some? && order.user != user.value { return Failure(AccessDenied); }
      if order.status.Paid? { return Failure(AlreadyPaid); }
      var _ := CancelOrder(o, now);
      if Keys(order.event).active == Some(o) {
        var _ := AdvanceQueue(order.event, now);
      } else {
        queues := queues[order.event := Keys(order.event).(waiting := Without(Keys(order.event).waiting, o))];
      }
      return Success(());
    }

    method GenerateTickets(o: OrderId, items: seq<Item>)
      modifies this`tickets
      ensures tickets == old(tickets) + TicketsFor(o, items)
    {
      var i := 0;
      while i < |items|
        invariant i <= |items|
        invariant tickets + TicketsFor(o, items[i..]) == old(tickets) + TicketsFor(o, items)
      {
        ghost var before := tickets;
        var ticket := Ticket(o, items[i].ticketType);
        for j := 0 to items[i].quantity
          invariant tickets == before + seq(j, _ => ticket)
        {
          tickets := tickets + [ticket];
        }
        assert items[i..][1..] == items[i + 1..];
        assert TicketsFor(o, items[i..]) == seq(items[i].quantity, _ => ticket) + TicketsFor(o, items[i + 1..]);
        i := i + 1;
      }
    }

    method HandlePaymentSuccess(o: OrderId, now: Time) returns (found: bool)
      modifies this`orders, this`queues, this`tickets
      ensures found == (o < |old(orders)|)
      ensures Snapshot() == Pay(old(Snapshot()), o, now)
    {
      if o >= |orders| { return false; }
      var order := orders[o];
      if order.status.Paid? { return true; }
      orders := orders[o := order.(status := Paid)];
      GenerateTickets(o, order.items);
      var _ := AdvanceQueue(order.event, now);
      return true;
    }

    method CheckTicketType(t: TypeId, now: Time) returns (objection: Option<Error>)
      ensures objection == Objection(inventory.Value(), t, now)
    {
      if t !in inventory.rows { return None; }
      var row := inventory.rows[t];
      if !row.isActive { return Some(TicketInactive); }
      if row.saleStart.Some? && now < row.saleStart.value { return Some(SaleNotStarted); }
      if row.saleEnd.Some? && now > row.saleEnd.value { return Some(SaleEnded); }
      if now > row.eventEnd { return Some(EventEnded); }
      if !row.published { return Some(EventNotPublished); }
      return None;
    }

    method PutToken(key: Option<Key>, token: Token)
      modifies this`tokens
      ensures Snapshot() == SetToken(old(Snapshot()), key, token)
    {
      if key.Some? { tokens := tokens[key.value := token]; }
    }

    method DeleteToken(key: Option<Key>)
      modifies this`tokens
      ensures Snapshot() == DropToken(old(Snapshot()), key)
    {
      if key.Some? { tokens := tokens - {key.value}; }
    }

    method CreateOrder(req: Request, fault: Fault, now: Time) returns (r: Result<OrderId, Error>)
      modifies this, inventory
      ensures (Snapshot(), r) == Create(old(Snapshot()), req, fault, now)
    {
      if exists o | 0 <= o < |orders| :: OpenOrder(orders[o], req.user, req.event, now) {
        return Failure(PendingOrderExists);
      }
      if req.key.Some? && req.key.value in tokens {
        match tokens[req.key.value]
        case Processing => return Failure(OrderProcessing);
        case Done(o) =>
          if o < |orders| { return Success(o); }
          return Failure(OrderProcessing);
      }
      PutToken(req.key, Processing);
      r := CreateOwnedOrder(req, fault, now);
    }

    method CreateOwnedOrder(req: Request, fault: Fault, now: Time) returns (r: Result<OrderId, Error>)
      modifies this, inventory
      ensures (Snapshot(), r) == CreateOwned(old(Snapshot()), req, fault, now)
    {
      var objection := CheckTicketType(req.ticketType, now);
      if objection.Some? {
        DeleteToken(req.key);
        return Failure(objection.value);
      }
      var reservation := inventory.ReserveTicketStock(req.ticketType, req.quantity, now);
      if !reservation.Reserved? {
        DeleteToken(req.key);
        return Failure(if reservation.SoldOut? then TicketsSoldOut else ReserveFailed);
      }
      if fault.OrderInsert? {
        inventory.ReleaseTicketStock(req.ticketType, req.quantity);
        DeleteToken(req.key);
        return Failure(OrderInsertFailed);
      }
      var o := |orders|;
      orders := orders + [NewOrder(req, Pending, [], now)];
      if fault.ItemInsert? {
        orders := orders[o := orders[o].(status := Cancelled)];
        inventory.ReleaseTicketStock(req.ticketType, req.quantity);
        DeleteToken(req.key);
        assert orders == old(orders) + [NewOrder(req, Cancelled, [], now)];
        return Failure(ItemInsertFailed);
      }
      orders := orders[o := orders[o].(items := [Item(req.ticketType, req.quantity)])];
      PutToken(req.key, Done(o));
      assert Snapshot() == Admit(old(Snapshot()), req, now);
      var _ := EnqueueOrder(o, req.event, now);
      return Success(o);
    }

    // `CreatePaymentToken` up to the call that leaves the system.
    method TakePaymentTurn(o: OrderId, user: Option<UserId>, now: Time) returns (granted: bool)
      modifies this`orders, this`queues, inventory
      ensures (Snapshot(), granted) == PaymentTurn(old(Snapshot()), o, user, now)
    {
      if o >= |orders| { return false; }
      var order := orders[o];
      if user.Some? && order.user != user.value { return false; }
      if !order.status.Pending? { return false; }
      CheckAndAdvanceExpiredActive(order.event, now);
      var active := Keys(order.event).active;
      return active.None? || active == Some(o);
    }

    // One tick of the expiry worker; `snapshot` is what its query returned.
    method ProcessExpiredOrders(snapshot: seq<OrderId>, now: Time)
      requires IsSnapshot(Snapshot(), snapshot, now)
      modifies this`orders, this`queues, inventory
      ensures Snapshot() == Sweep(old(Snapshot()), snapshot, now)
    {
      var i := 0;
      while i < |snapshot|
        invariant i <= |snapshot|
        invariant Sweep(Snapshot(), snapshot[i..], now) == Sweep(old(Snapshot()), snapshot, now)
      {
        var _ := CancelOrder(snapshot[i], now);
        assert snapshot[i..][1..] == snapshot[i + 1..];
        i := i + 1;
      }
    }
  }
}
