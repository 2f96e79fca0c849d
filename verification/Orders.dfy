/** The `orders`, `order_items` and `tickets` tables, and what they hold of each ticket type. */
module Orders {
  import opened Common

  // "SUKSES" is compared against next to "PAID" but never written, so both are `Paid` here.
  datatype Status = Pending | Paid | Cancelled

  datatype Item = Item(ticketType: TypeId, quantity: Quantity)

  datatype Order = Order(user: UserId, event: EventId, status: Status, expiresAt: Time, items: seq<Item>)

  datatype Ticket = Ticket(order: OrderId, ticketType: TypeId)

  predicate IsPending(orders: seq<Order>, o: OrderId) {
    o < |orders| && orders[o].status.Pending?
  }

  predicate IsCancelled(orders: seq<Order>, o: OrderId) {
    o < |orders| && orders[o].status.Cancelled?
  }

  // How many tickets of type `t` a list of items asks for.
  function Asked(items: seq<Item>, t: TypeId): nat {
    if items == [] then 0
    else (if items[0].ticketType == t then items[0].quantity else 0) + Asked(items[1..], t)
  }

  // What one order holds back of type `t`.
  function Share(order: Order, t: TypeId): nat {
    if order.status.Cancelled? then 0 else Asked(order.items, t)
  }

  function PaidShare(order: Order, t: TypeId): nat {
    if order.status.Paid? then Asked(order.items, t) else 0
  }

  // SUM of the item quantities of all PENDING and PAID orders.
  function Held(orders: seq<Order>, t: TypeId): nat {
    if orders == [] then 0 else Held(orders[..|orders|-1], t) + Share(orders[|orders|-1], t)
  }

  // SUM of the item quantities of all PAID orders.
  function PaidFor(orders: seq<Order>, t: TypeId): nat {
    if orders == [] then 0 else PaidFor(orders[..|orders|-1], t) + PaidShare(orders[|orders|-1], t)
  }

  function Issued(tickets: seq<Ticket>, t: TypeId): nat {
    if tickets == [] then 0
    else Issued(tickets[..|tickets|-1], t) + (if tickets[|tickets|-1].ticketType == t then 1 else 0)
  }

  function IssuedTo(tickets: seq<Ticket>, o: OrderId, t: TypeId): nat {
    if tickets == [] then 0
    else IssuedTo(tickets[..|tickets|-1], o, t) + (if tickets[|tickets|-1] == Ticket(o, t) then 1 else 0)
  }

  // The tickets that one settled order is given, item by item.
  function TicketsFor(o: OrderId, items: seq<Item>): seq<Ticket> {
    if items == [] then []
    else seq(items[0].quantity, _ => Ticket(o, items[0].ticketType)) + TicketsFor(o, items[1..])
  }

  lemma {:induction false} HeldUpdate(orders: seq<Order>, o: OrderId, order: Order, t: TypeId)
    requires o < |orders|
    ensures Held(orders[o := order], t) == Held(orders, t) - Share(orders[o], t) + Share(order, t)
    ensures PaidFor(orders[o := order], t) == PaidFor(orders, t) - PaidShare(orders[o], t) + PaidShare(order, t)
  {
    var last := |orders| - 1;
    if o < last {
      assert orders[o := order][..last] == orders[..last][o := order];
      HeldUpdate(orders[..last], o, order, t);
    } else {
      assert orders[o := order][..last] == orders[..last];
    }
  }

  lemma HeldAppend(orders: seq<Order>, order: Order, t: TypeId)
    ensures Held(orders + [order], t) == Held(orders, t) + Share(order, t)
    ensures PaidFor(orders + [order], t) == PaidFor(orders, t) + PaidShare(order, t)
  {
  }

  lemma {:induction false} ShareWithinHeld(orders: seq<Order>, o: OrderId, t: TypeId)
    requires o < |orders|
    ensures Share(orders[o], t) <= Held(orders, t)
  {
    var last := |orders| - 1;
    if o < last { ShareWithinHeld(orders[..last], o, t); }
  }

  lemma {:induction false} PaidWithinHeld(orders: seq<Order>, t: TypeId)
    ensures PaidFor(orders, t) <= Held(orders, t)
  {
    if orders != [] { PaidWithinHeld(orders[..|orders|-1], t); }
  }

  lemma {:induction false} IssuedAppend(a: seq<Ticket>, b: seq<Ticket>, o: OrderId, t: TypeId)
    ensures Issued(a + b, t) == Issued(a, t) + Issued(b, t)
    ensures IssuedTo(a + b, o, t) == IssuedTo(a, o, t) + IssuedTo(b, o, t)
  {
    if b == [] {
      assert a + b == a;
    } else {
      var last := |b| - 1;
      assert (a + b)[..|a + b| - 1] == a + b[..last];
      IssuedAppend(a, b[..last], o, t);
    }
  }

  lemma {:induction false} IssuedRun(n: nat, ticket: Ticket, o: OrderId, t: TypeId)
    ensures var run := seq(n, _ => ticket);
            && Issued(run, t) == (if ticket.ticketType == t then n else 0)
            && IssuedTo(run, o, t) == (if ticket == Ticket(o, t) then n else 0)
  {
    if n > 0 {
      assert seq(n, _ => ticket)[..n-1] == seq(n - 1, _ => ticket);
      IssuedRun(n - 1, ticket, o, t);
    }
  }

  /** The tickets of an order are its item quantities, split per type as ordered, and nobody else's. */
  lemma {:induction false} TicketsForCount(p: OrderId, items: seq<Item>, o: OrderId, t: TypeId)
    ensures Issued(TicketsFor(p, items), t) == Asked(items, t)
    ensures IssuedTo(TicketsFor(p, items), o, t) == (if o == p then Asked(items, t) else 0)
  {
    if items != [] {
      var run := seq(items[0].quantity, _ => Ticket(p, items[0].ticketType));
      IssuedRun(items[0].quantity, Ticket(p, items[0].ticketType), o, t);
      TicketsForCount(p, items[1..], o, t);
      IssuedAppend(run, TicketsFor(p, items[1..]), o, t);
    }
  }
}
