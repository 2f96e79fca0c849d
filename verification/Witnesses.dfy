/** Small rooms in which guarantees that the code keeps only under a condition are seen to fail. */
module Witnesses {
  import opened Common
  import opened Sequences
  import opened Orders
  import opened Inventory
  import opened Machine
  import opened WaitingRoom
  import opened RoomTheorems
  import opened Fairness
  import opened Conservation
  import opened Issuance
  import opened Compensation

  const EVENT: EventId := 7
  const TYPE: TypeId := 9

  function Bought(user: UserId, status: Status, expiresAt: Time): Order {
    Order(user, EVENT, status, expiresAt, [Item(TYPE, 1)])
  }

  // Order 0 is active since time 0; orders 1 and 2 wait; order 3 was cancelled. Four tickets, one unsold.
  function Room(): State {
    State([Bought(100, Pending, LEASE), Bought(101, Pending, WAITING_BUFFER),
           Bought(102, Pending, WAITING_BUFFER), Bought(103, Cancelled, LEASE)],
          map[EVENT := Queue(Some(0), 180, [1, 2])],
          Stock(map[TYPE := 1], map[]),
          [],
          map[])
  }

  lemma RoomIsSound()
    ensures RoomOk(Room()) && Lost(Room()) == {} && TicketsOk(Room())
  {
    forall e: EventId ensures QueueOk(Room().orders, QueueOf(Room(), e), e) && LiveAt(Room(), e) {
    }
    forall t: TypeId ensures PaidFor(Room().orders, t) == 0 {
      NonePaid(Room().orders, t);
    }
  }

  lemma {:induction false} NonePaid(orders: seq<Order>, t: TypeId)
    requires forall o :: 0 <= o < |orders| ==> !orders[o].status.Paid?
    ensures PaidFor(orders, t) == 0
  {
    if orders != [] { NonePaid(orders[..|orders| - 1], t); }
  }

  lemma FirstInLine()
    ensures FirstPending(Room().orders, [1, 2]) == 0
  {
  }

  lemma NextIsOne()
    ensures QueueOf(Room(), EVENT) == Queue(Some(0), 180, [1, 2]) && LeaseOver(QueueOf(Room(), EVENT), LEASE)
    ensures Displaced(Room(), EVENT, 0) == {1}
  {
    FirstInLine();
  }

  /** At the last instant of its lease the active order polls its status: it is cancelled and then put back
      in a queue as a CANCELLED order. */
  lemma PollAtExpiry()
    ensures !RoomOk(Apply(Room(), DoStatus(0, None), LEASE))
  {
    RoomIsSound();
    assert Room().queues[EVENT].active == Some(0);
    assert LastSecondQuery(Room(), DoStatus(0, None), LEASE);
    RoomKeptIff(Room(), DoStatus(0, None), LEASE);
  }

  /** Order 2 asks to pay when the lease has run out: order 1 is promoted, displaced and lost. */
  lemma TimeoutLosesNext()
    ensures Lost(Apply(Room(), DoPaymentTurn(2, None), LEASE)) == {1}
  {
    RoomIsSound();
    NextIsOne();
    assert Dropped(Room(), DoPaymentTurn(2, None), LEASE) == {1};
    LostAfter(Room(), DoPaymentTurn(2, None), LEASE);
  }

  /** A success notification for waiting order 2 throws active order 0 out of its lease. */
  lemma PaymentOfWaitingLosesActive()
    ensures Lost(Apply(Room(), DoPay(2), 0)) == {0}
  {
    RoomIsSound();
    LostAfter(Room(), DoPay(2), 0);
  }

  /** Order 1, next in line, polls its status when the lease has run out, and ends up behind order 2. */
  lemma PollSendsBack()
    ensures SentBack(Room(), DoStatus(1, None), EVENT, 1, LEASE)
    ensures var q := QueueOf(Apply(Room(), DoStatus(1, None), LEASE), EVENT);
            q.active == Some(2) && 1 in q.waiting
  {
    NextIsOne();
    FirstInLine();
    SecondInLineActive();
    QueryPlaces(Room(), 1, None, LEASE);
    PushedBack(CheckActive(Room(), EVENT, LEASE));
  }

  lemma PushedBack(s: State)
    requires QueueOf(s, EVENT).active == Some(2) && !InQueue(QueueOf(s, EVENT), 1)
    ensures var q := QueueOf(Place(s, EVENT, 1, LEASE).0, EVENT);
            q.active == Some(2) && 1 in q.waiting
  {
    assert Place(s, EVENT, 1, LEASE).0 == Push(s, EVENT, 1, LEASE);
  }

  lemma SecondInLineActive()
    ensures var q := QueueOf(CheckActive(Room(), EVENT, LEASE), EVENT);
            q.active == Some(2) && !InQueue(q, 1)
  {
    RoomIsSound();
    FirstInLine();
    var q, s1 := QueueOf(Room(), EVENT), CheckActive(Room(), EVENT, LEASE);
    assert q.waiting[0] == 1 && q.waiting[1..] == [2];
    NextIsDisplaced(Room(), EVENT, 1, LEASE);
    CheckActiveKeeps(Room(), EVENT, LEASE);
    TimeOutShape(Room(), 0, LEASE);
    assert 2 !in Lost(s1) && IsPending(s1.orders, 2);
  }

  lemma HittingThreeBreaksBooks(step: Step)
    requires Sells(step) && Enabled(Room(), step, 0) && Rehit(Room(), step, 0) == Some(3)
    ensures !Balanced(Room(), Apply(Room(), step, 0))
  {
    RoomIsSound();
    AskedOne(Item(TYPE, 1), TYPE);
    assert TYPE in Room().stock.counter && Asked(Room().orders[3].items, TYPE) == 1;
    ConservationIff(Room(), step, 0);
  }

  /** Cancelling order 3 a second time gives its ticket back twice; a late payment for it issues a ticket
      whose stock was given back. */
  lemma SecondLookBreaksBooks()
    ensures !Balanced(Room(), Apply(Room(), DoCancel(3), 0))
    ensures !Balanced(Room(), Apply(Room(), DoUserCancel(3, Some(103)), 0))
    ensures !Balanced(Room(), Apply(Room(), DoPay(3), 0))
  {
    HittingThreeBreaksBooks(DoCancel(3));
    HittingThreeBreaksBooks(DoUserCancel(3, Some(103)));
    HittingThreeBreaksBooks(DoPay(3));
  }

  // Order 0 is alone and active; its type has two tickets, one of them unsold.
  function Lonely(): State {
    State([Bought(100, Pending, LEASE)], map[EVENT := Queue(Some(0), 180, [])],
          Stock(map[TYPE := 1], map[TYPE := TicketType(EVENT, 2, 1, true, None, None, true, 9 * LEASE)]), [], map[])
  }

  // Order 0 polls in the last second of its lease; when the lease it is then given has run out, somebody
  // else buys a ticket.
  function PollThenBuy(): Run {
    [(DoStatus(0, None), LEASE), (DoCreate(Request(101, EVENT, TYPE, 1, None), NoFault), 2 * LEASE + 2 * SECOND)]
  }

  lemma LonelyIsSound()
    ensures RoomOk(Lonely()) && Backed(Lonely()) && Held(Lonely().orders, TYPE) == 1
  {
    forall e: EventId ensures QueueOk(Lonely().orders, QueueOf(Lonely(), e), e) && LiveAt(Lonely(), e) {
    }
    assert Lonely().orders[..0] == [];
    AskedOne(Item(TYPE, 1), TYPE);
  }

  /** Order 0 asks to pay when its lease has run out: the call that cancels it gives it the turn. */
  lemma TurnForCancelled()
    ensures var (s, granted) := PaymentTurn(Lonely(), 0, None, LEASE);
            granted && s.orders[0].status.Cancelled?
  {
    LonelyIsSound();
    TurnAfterTimeOut(Lonely(), 0, None, LEASE);
    TimeOutShape(Lonely(), 0, LEASE);
  }

  // The poll leaves order 0 CANCELLED in the slot.
  lemma AfterPoll()
    ensures var s := Apply(Lonely(), DoStatus(0, None), LEASE);
            && s.orders == [Bought(100, Cancelled, 2 * LEASE)]
            && QueueOf(s, EVENT) == Queue(Some(0), 360, [])
            && TYPE in s.stock.counter && s.stock.counter[TYPE] == 2
            && TYPE in s.stock.rows && s.stock.rows[TYPE] == Lonely().stock.rows[TYPE].(sold := 0)
            && s.tokens == map[]
  {
    var s := Lonely();
    var s1 := CheckActive(s, EVENT, LEASE);
    assert LeaseOver(QueueOf(s, EVENT), LEASE);
    assert FirstPending(MarkCancelled(s, 0).orders, []) == 0;
    assert s1 == TimeOut(s, EVENT, 0, LEASE);
    assert [Item(TYPE, 1)][1..] == [];
    assert ReleaseAll(s.stock, [Item(TYPE, 1)]) == Release(s.stock, TYPE, 1);
    assert QueueOf(s1, EVENT) == EMPTY_QUEUE && s1.orders == [Bought(100, Cancelled, LEASE)];
  }

  // The purchase finds that slot timed out.
  lemma PurchaseHitsAgain()
    ensures var s, buy := Apply(Lonely(), DoStatus(0, None), LEASE), PollThenBuy()[1];
            Shape(s) && Enters(s, buy.0, buy.1) && Rehit(s, buy.0, buy.1) == Some(0)
            && Surplus(s, buy.0, TYPE, buy.1) == 1
  {
    var s, buy := Apply(Lonely(), DoStatus(0, None), LEASE), PollThenBuy()[1];
    LonelyIsSound();
    AfterPoll();
    ShapeKept(Lonely(), DoStatus(0, None), LEASE);
    assert !HasOpenOrder(s, 101, EVENT, buy.1);
    assert Reserve(s.stock, TYPE, 1, buy.1).1.Reserved?;
    AskedOne(Item(TYPE, 1), TYPE);
  }

  /** A last-second poll followed by an ordinary purchase oversells: no order is paid or cancelled out of
      turn, and yet three tickets of a quota of two are on offer or held. */
  lemma PollThenPurchaseOversells()
    ensures var s, run := Lonely(), PollThenBuy();
            && RoomOk(s) && Backed(s) && Total(s, TYPE) == 2 == s.stock.rows[TYPE].quantity
            && Possible(s, run) && TYPE in Exec(s, run).stock.counter && Total(Exec(s, run), TYPE) == 3
  {
    var s, run := Lonely(), PollThenBuy();
    LonelyIsSound();
    PurchaseHitsAgain();
    var s1 := Apply(s, run[0].0, run[0].1);
    assert Rehit(s, run[0].0, run[0].1).None?;
    TotalAfter(s, run[0].0, TYPE, run[0].1);
    TotalAfter(s1, run[1].0, TYPE, run[1].1);
    var rest: Run := run[1..];
    assert rest == [run[1]] && rest[1..] == [];
    assert Exec(s, run) == Exec(s1, rest) == Exec(Apply(s1, run[1].0, run[1].1), []);
    assert Possible(s1, rest);
  }

  /** A failed-payment notification after the successful one leaves tickets for stock that is on sale again. */
  lemma CancelAfterPayment()
    ensures var paid := Apply(Room(), DoPay(0), 0);
            TicketsOk(paid) && !TicketsOk(Apply(paid, DoCancel(0), 0))
  {
    RoomIsSound();
    var paid := Apply(Room(), DoPay(0), 0);
    IssuanceIff(Room(), DoPay(0), 0);
    ShapeKept(Room(), DoPay(0), 0);
    PayShape(Room(), 0, 0);
    assert paid.orders[0].status.Paid? && paid.orders[0].items == [Item(TYPE, 1)];
    IssuanceIff(paid, DoCancel(0), 0);
  }

  // Two orders have bought a quota of two; order 0 is active and order 1 waits.
  function SoldOut(): State {
    State([Bought(100, Pending, LEASE), Bought(101, Pending, WAITING_BUFFER)],
          map[EVENT := Queue(Some(0), 180, [1])],
          Stock(map[TYPE := 0], map[TYPE := TicketType(EVENT, 2, 2, true, None, None, true, 9 * LEASE)]), [], map[])
  }

  lemma SoldOutIsSound()
    ensures RoomOk(SoldOut()) && Backed(SoldOut())
  {
    forall e: EventId ensures QueueOk(SoldOut().orders, QueueOf(SoldOut(), e), e) && LiveAt(SoldOut(), e) {
    }
    assert SoldOut().orders[..1] == [Bought(100, Pending, LEASE)] && SoldOut().orders[..1][..0] == [];
    AskedOne(Item(TYPE, 1), TYPE);
    assert Held(SoldOut().orders, TYPE) == Held(SoldOut().orders[..1], TYPE) + 1;
    assert Held(SoldOut().orders[..1], TYPE) == Held(SoldOut().orders[..1][..0], TYPE) + 1;
  }

  // The organizer lowers the quota to one, and order 1 is cancelled: the key offers a ticket that the row lacks.
  function Lowered(): State {
    Apply(Apply(SoldOut(), DoOrganize(ChangeType(TYPE, 1, 0, LEASE)), 1), DoCancel(1), 2)
  }

  lemma KeyOffersMore()
    ensures var s := Lowered();
            && s.orders == [Bought(100, Pending, LEASE), Bought(101, Cancelled, WAITING_BUFFER)]
            && s.stock == Stock(map[TYPE := 1],
                                map[TYPE := TicketType(EVENT, 1, 1, true, Some(0), Some(LEASE), true, 9 * LEASE)])
            && s.tokens == map[]
  {
    var s1 := Apply(SoldOut(), DoOrganize(ChangeType(TYPE, 1, 0, LEASE)), 1);
    assert s1.stock.counter == map[TYPE := 0];
    assert [Item(TYPE, 1)][1..] == [];
    assert ReleaseAll(s1.stock, [Item(TYPE, 1)]) == Release(s1.stock, TYPE, 1);
    assert Lowered().stock == Release(s1.stock, TYPE, 1);
    assert Release(s1.stock, TYPE, 1).counter == map[TYPE := 1];
  }

  lemma LoweredTakesFromOthers()
    ensures var req := Request(102, EVENT, TYPE, 1, None);
            TakesFromOthers(Lowered(), req, OrderInsert, 3)
            && Create(Lowered(), req, OrderInsert, 3).1 == Failure(OrderInsertFailed)
  {
    KeyOffersMore();
    assert !HasOpenOrder(Lowered(), 102, EVENT, 3);
    assert Reserve(Lowered().stock, TYPE, 1, 3).1.Reserved?;
  }

  /** Somebody else's request for that ticket fails at its first INSERT, and the row forgets the ticket of
      order 0, which still holds it. */
  lemma FailedInsertTakesFromOthers()
    ensures RoomOk(SoldOut()) && Backed(SoldOut())
    ensures var req := Request(102, EVENT, TYPE, 1, None);
            var (s', r) := Create(Lowered(), req, OrderInsert, 3);
            && r == Failure(OrderInsertFailed) && IsPending(s'.orders, 0)
            && TYPE in Lowered().stock.rows && Lowered().stock.rows[TYPE].sold == 1
            && TYPE in s'.stock.rows && s'.stock.rows[TYPE].sold == 0
  {
    SoldOutIsSound();
    KeyOffersMore();
    LoweredTakesFromOthers();
    FailedCreateUndone(Lowered(), Request(102, EVENT, TYPE, 1, None), OrderInsert, 3);
    assert IsPending(Lowered().orders, 0);
  }
}
