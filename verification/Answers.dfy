/** What the callers of ticket-service are told, exactly. */
module Answers {
  import opened Common
  import opened Sequences
  import opened Orders
  import opened Inventory
  import opened Machine
  import opened WaitingRoom
  import opened RoomTheorems
  import opened Conservation
  import opened Lifecycle

  /** A PENDING order of this user for this event that still has time. */
  ghost predicate Blocked(s: State, user: UserId, e: EventId, now: Time) {
    exists o: OrderId :: o < |s.orders|
      && s.orders[o].user == user && s.orders[o].event == e
      && s.orders[o].status == Pending && s.orders[o].expiresAt > now
  }

  /** A request is refused for an open order if and only if its user has one for its event. */
  lemma PendingGuardIff(s: State, req: Request, fault: Fault, now: Time)
    ensures Create(s, req, fault, now).1 == Failure(PendingOrderExists) <==> Blocked(s, req.user, req.event, now)
    ensures HasOpenOrder(s, req.user, req.event, now) <==> Blocked(s, req.user, req.event, now)
  {
    GuardIsBlocked(s, req.user, req.event, now);
    if !HasOpenOrder(s, req.user, req.event, now) && Replay(s, req.key).None? {
      OwnedAnswer(SetToken(s, req.key, Processing), req, fault, now);
    }
  }

  lemma GuardIsBlocked(s: State, user: UserId, e: EventId, now: Time)
    ensures HasOpenOrder(s, user, e, now) <==> Blocked(s, user, e, now)
  {
    if HasOpenOrder(s, user, e, now) {
      var o :| 0 <= o < |s.orders| && OpenOrder(s.orders[o], user, e, now);
      assert s.orders[o].user == user;
    }
    if Blocked(s, user, e, now) {
      var o: OrderId :| o < |s.orders| && s.orders[o].user == user && s.orders[o].event == e
                        && s.orders[o].status == Pending && s.orders[o].expiresAt > now;
      assert OpenOrder(s.orders[o], user, e, now);
    }
  }

  /** Open orders for other events, or of other users, stop nobody. */
  lemma OtherOrdersStopNobody(s: State, req: Request, fault: Fault, now: Time)
    requires forall o :: 0 <= o < |s.orders| && s.orders[o].status == Pending ==>
               s.orders[o].event != req.event || s.orders[o].user != req.user
    ensures Create(s, req, fault, now).1 != Failure(PendingOrderExists)
  {
    PendingGuardIff(s, req, fault, now);
  }

  /** The checks of the service raise no objection exactly for a type that is on sale or unknown, and
      otherwise the first one that applies. */
  lemma ObjectionIff(st: Stock, t: TypeId, now: Time)
    ensures Objection(st, t, now) == None <==> Sellable(st, t, now)
    ensures t in st.rows ==>
              var row, objection := st.rows[t], Objection(st, t, now);
              var early := row.saleStart != None && now < row.saleStart.value;
              var late := row.saleEnd != None && row.saleEnd.value < now;
              && (objection == Some(TicketInactive) <==> !row.isActive)
              && (objection == Some(SaleNotStarted) <==> row.isActive && early)
              && (objection == Some(SaleEnded) <==> row.isActive && !early && late)
              && (objection == Some(EventEnded) <==> row.isActive && !early && !late && row.eventEnd < now)
              && (objection == Some(EventNotPublished) <==>
                    row.isActive && !early && !late && now <= row.eventEnd && !row.published)
  {
  }

  // The answer of a request that owns its key.
  function OwnedOutcome(s: State, req: Request, fault: Fault, now: Time): Result<OrderId, Error> {
    var t := req.ticketType;
    if !Sellable(s.stock, t, now) then Failure(Objection(s.stock, t, now).value)
    else if t !in s.stock.rows && t !in s.stock.counter then Failure(ReserveFailed)
    else if Offer(s.stock, t) < req.quantity then Failure(TicketsSoldOut)
    else match fault
      case NoFault => Success(|s.orders|)
      case OrderInsert => Failure(OrderInsertFailed)
      case ItemInsert => Failure(ItemInsertFailed)
  }

  lemma OwnedAnswer(s: State, req: Request, fault: Fault, now: Time)
    ensures CreateOwned(s, req, fault, now).1 == OwnedOutcome(s, req, fault, now)
  {
    if Sellable(s.stock, req.ticketType, now) { ReservedIff(s.stock, req.ticketType, req.quantity, now); }
  }

  /** The answer to every request, from every state: the open order first, then what the key has recorded, then
      the first objection, then what is on offer, then the INSERTs. */
  lemma CreateAnswer(s: State, req: Request, fault: Fault, now: Time)
    ensures Create(s, req, fault, now).1 ==
            if Blocked(s, req.user, req.event, now) then Failure(PendingOrderExists)
            else if req.key != None && req.key.value in s.tokens then
              match s.tokens[req.key.value]
              case Processing => Failure(OrderProcessing)
              case Done(o) => if o < |s.orders| then Success(o) else Failure(OrderProcessing)
            else OwnedOutcome(s, req, fault, now)
  {
    GuardIsBlocked(s, req.user, req.event, now);
    OwnedAnswer(SetToken(s, req.key, Processing), req, fault, now);
  }

  /** What a failed request leaves in the table: a CANCELLED row without items when the item could not be
      inserted, and nothing otherwise. */
  lemma FailedRow(s: State, req: Request, fault: Fault, now: Time)
    requires Create(s, req, fault, now).1.Failure?
    ensures Create(s, req, fault, now).0.orders ==
            if Create(s, req, fault, now).1 == Failure(ItemInsertFailed)
            then s.orders + [Order(req.user, req.event, Cancelled, now + 900_000_000, [])]
            else s.orders
  {
    if !HasOpenOrder(s, req.user, req.event, now) && Replay(s, req.key).None? {
      FailedOwnedRow(SetToken(s, req.key, Processing), req, fault, now);
    }
  }

  lemma FailedOwnedRow(s: State, req: Request, fault: Fault, now: Time)
    requires CreateOwned(s, req, fault, now).1.Failure?
    ensures CreateOwned(s, req, fault, now).0.orders ==
            if CreateOwned(s, req, fault, now).1 == Failure(ItemInsertFailed)
            then s.orders + [Order(req.user, req.event, Cancelled, now + 900_000_000, [])]
            else s.orders
  {
  }

  /** From every state and for every caller: a turn to pay is only ever given for an order that exists, to its
      owner or an internal caller, and that was PENDING before the call; otherwise nothing happens. */
  lemma TurnOnlyForOwner(s: State, o: OrderId, user: Option<UserId>, now: Time)
    ensures PaymentTurn(s, o, user, now).1 ==> Asks(s, o, user)
    ensures !Asks(s, o, user) ==> PaymentTurn(s, o, user, now) == (s, false)
  {
  }

  /** A cancellation by a user: whom it is refused and why, that a refusal changes nothing, and that it cancels
      otherwise and takes the order out of its queue. */
  lemma UserCancelAnswer(s: State, o: OrderId, user: Option<UserId>, now: Time)
    requires Shape(s)
    ensures var (s', r) := UserCancel(s, o, user, now);
            && r == (if o >= |s.orders| then Failure(OrderNotFound)
                     else if !Allowed(s.orders[o], user) then Failure(AccessDenied)
                     else if s.orders[o].status == Paid then Failure(AlreadyPaid)
                     else Success(()))
            && (r.Failure? ==> s' == s)
            && (r.Success? ==> o < |s'.orders| && s'.orders[o].status == Cancelled
                               && !InQueue(QueueOf(s', s.orders[o].event), o))
  {
    if MaySee(s, o, user) && !s.orders[o].status.Paid? {
      UserCancelKeeps(s, o, user, now);
      CancelShape(s, o, now);
    }
  }

  /** A status query that is refused says why and changes nothing; one for a settled order says so. */
  lemma StatusRefusal(s: State, o: OrderId, user: Option<UserId>, now: Time)
    ensures !Asks(s, o, user) ==>
              AskStatus(s, o, user, now) ==
              (s, if o >= |s.orders| then Failure(OrderNotFound)
                  else if !Allowed(s.orders[o], user) then Failure(AccessDenied)
                  else if s.orders[o].status == Paid then Success(Completed)
                  else Success(WasCancelled))
    ensures Asks(s, o, user) && now > s.orders[o].expiresAt ==> AskStatus(s, o, user, now).1 == Success(Expired)
  {
  }
}
