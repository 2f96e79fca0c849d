/** What a `CreateOrder` that fails leaves behind, and what a repeated request is told. */
module Compensation {
  import opened Common
  import opened Sequences
  import opened Orders
  import opened Inventory
  import opened Machine
  import opened WaitingRoom
  import opened RoomTheorems
  import opened Conservation
  import opened Issuance
  import opened Answers

  /** An INSERT fails for stock that the script took and the row could not count, since the key offers more than
      the row has left; the release then takes from the row what others have bought. */
  ghost predicate TakesFromOthers(s: State, req: Request, fault: Fault, now: Time) {
    var t, n := req.ticketType, req.quantity;
    && !Blocked(s, req.user, req.event, now) && (req.key.Some? ==> req.key.value !in s.tokens)
    && Sellable(s.stock, t, now) && !fault.NoFault?
    && t in s.stock.rows && t in s.stock.counter && n <= s.stock.counter[t]
    && s.stock.rows[t].quantity - s.stock.rows[t].sold < n <= s.stock.rows[t].sold
  }

  /** Whichever INSERT fails and for whatever reason the request is refused, from every state: no PENDING order,
      no held quantity, no queue entry, no ticket and no idempotency key is left behind; a counter that was
      loaded is as before, and at most the missing one has been loaded. The row is as before, too, if and only
      if the release does not take from it what others have bought; then it counts that much less. */
  lemma FailedCreateUndone(s: State, req: Request, fault: Fault, now: Time)
    requires Create(s, req, fault, now).1.Failure?
    ensures var s', t := Create(s, req, fault, now).0, req.ticketType;
            && s'.queues == s.queues && s'.tickets == s.tickets && s'.tokens == s.tokens
            && (s'.stock.counter == s.stock.counter
                || (t !in s.stock.counter && t in s.stock.rows
                    && s'.stock.counter == s.stock.counter[t := Available(s.stock.rows[t])]))
            && s.orders <= s'.orders
            && (forall o: OrderId :: IsPending(s'.orders, o) <==> IsPending(s.orders, o))
            && (forall u: TypeId :: Held(s'.orders, u) == Held(s.orders, u))
    ensures var rows, rows', t := s.stock.rows, Create(s, req, fault, now).0.stock.rows, req.ticketType;
            && (rows' == rows <==> !TakesFromOthers(s, req, fault, now))
            && (TakesFromOthers(s, req, fault, now) ==>
                  rows' == rows[t := rows[t].(sold := rows[t].sold - req.quantity)])
  {
    RefusedCase(s, req, fault, now);
    FailedCreateTokens(s, req, fault, now);
    FailedRequestStock(s, req, fault, now);
    forall u: TypeId { HeldAppend(s.orders, NewOrder(req, Cancelled, [], now), u); }
  }

  lemma FailedRequestStock(s: State, req: Request, fault: Fault, now: Time)
    requires Create(s, req, fault, now).1.Failure?
    ensures var st, st', t := s.stock, Create(s, req, fault, now).0.stock, req.ticketType;
            && (st'.counter == st.counter
                || (t !in st.counter && t in st.rows && st'.counter == st.counter[t := Available(st.rows[t])]))
            && st'.rows == if TakesFromOthers(s, req, fault, now)
                           then st.rows[t := st.rows[t].(sold := st.rows[t].sold - req.quantity)] else st.rows
  {
    GuardIsBlocked(s, req.user, req.event, now);
    ObjectionIff(s.stock, req.ticketType, now);
    FailedStock(s, req, fault, now);
    UnkeptLeavesStock(s.stock, req.ticketType, req.quantity, now);
  }

  // Which of the two a failing request leaves: the stock as it was, or an unkept reservation.
  lemma FailedStock(s: State, req: Request, fault: Fault, now: Time)
    requires Create(s, req, fault, now).1.Failure?
    ensures Create(s, req, fault, now).0.stock ==
            if HasOpenOrder(s, req.user, req.event, now) || Replay(s, req.key).Some?
               || Objection(s.stock, req.ticketType, now).Some?
            then s.stock else Unkept(s.stock, req.ticketType, req.quantity, now)
    ensures !HasOpenOrder(s, req.user, req.event, now) && Replay(s, req.key).None? && fault.NoFault?
            && Objection(s.stock, req.ticketType, now).None?
            ==> !Reserve(s.stock, req.ticketType, req.quantity, now).1.Reserved?
  {
    if !HasOpenOrder(s, req.user, req.event, now) && Replay(s, req.key).None? {
      FailedOwned(SetToken(s, req.key, Processing), req, fault, now);
    }
  }

  lemma FailedOwned(s: State, req: Request, fault: Fault, now: Time)
    requires CreateOwned(s, req, fault, now).1.Failure?
    ensures CreateOwned(s, req, fault, now).0.stock ==
            if Objection(s.stock, req.ticketType, now).Some? then s.stock
            else Unkept(s.stock, req.ticketType, req.quantity, now)
    ensures fault.NoFault? && Objection(s.stock, req.ticketType, now).None?
            ==> !Reserve(s.stock, req.ticketType, req.quantity, now).1.Reserved?
  {
  }

  lemma FailedCreateTokens(s: State, req: Request, fault: Fault, now: Time)
    requires Create(s, req, fault, now).1.Failure?
    ensures Create(s, req, fault, now).0.tokens == s.tokens
  {
    if !HasOpenOrder(s, req.user, req.event, now) && Replay(s, req.key).None? {
      FailedOwnedTokens(SetToken(s, req.key, Processing), req, fault, now);
      if req.key.Some? { assert s.tokens[req.key.value := Processing] - {req.key.value} == s.tokens; }
    }
  }

  lemma FailedOwnedTokens(s: State, req: Request, fault: Fault, now: Time)
    requires CreateOwned(s, req, fault, now).1.Failure?
    ensures CreateOwned(s, req, fault, now).0.tokens == DropToken(s, req.key).tokens
  {
  }

  /** Exactly when a request makes a new order. */
  lemma CreatedIff(s: State, req: Request, fault: Fault, now: Time)
    ensures Enters(s, DoCreate(req, fault), now) <==>
            && !Blocked(s, req.user, req.event, now)
            && (req.key.Some? ==> req.key.value !in s.tokens)
            && Sellable(s.stock, req.ticketType, now)
            && req.quantity <= Offer(s.stock, req.ticketType)
            && fault.NoFault?
  {
    GuardIsBlocked(s, req.user, req.event, now);
    ObjectionIff(s.stock, req.ticketType, now);
    if Sellable(s.stock, req.ticketType, now) { ReservedIff(s.stock, req.ticketType, req.quantity, now); }
  }

  /** A ticket type that has been deleted, whose counter stays, is sold exactly as far as the counter goes,
      whatever its sale dates were: the failed lookup skips every check. */
  lemma DeletedTypeStillSells(s: State, t: TypeId, req: Request, fault: Fault, deleted: Time, now: Time)
    requires req.ticketType == t && t in s.stock.counter
    ensures var s' := Apply(s, DoOrganize(DropType(t)), deleted);
            Enters(s', DoCreate(req, fault), now) <==>
            && !Blocked(s, req.user, req.event, now)
            && (req.key.Some? ==> req.key.value !in s.tokens)
            && req.quantity <= s.stock.counter[t]
            && fault.NoFault?
  {
    var s' := Apply(s, DoOrganize(DropType(t)), deleted);
    GuardIsBlocked(s, req.user, req.event, now);
    GuardIsBlocked(s', req.user, req.event, now);
    CreatedIff(s', req, fault, now);
  }

  /** After an organizer has changed a ticket type, a request is granted exactly within the new sale dates, while
      the event goes on, is published and the type active, and as far as the new quota is not sold. */
  lemma ChangedTypeIsSold(s: State, quantity: nat, saleStart: Time, saleEnd: Time, changed: Time,
      req: Request, fault: Fault, now: Time)
    requires req.ticketType in s.stock.rows && changed <= now
    ensures var s' := Apply(s, DoOrganize(ChangeType(req.ticketType, quantity, saleStart, saleEnd)), changed);
            var row := s.stock.rows[req.ticketType];
            Enters(s', DoCreate(req, fault), now) <==>
            && !Blocked(s, req.user, req.event, now)
            && (req.key.Some? ==> req.key.value !in s.tokens)
            && row.isActive && row.published && saleStart <= now <= saleEnd && now <= row.eventEnd
            && req.quantity <= quantity - row.sold
            && fault.NoFault?
  {
    var t := req.ticketType;
    var s' := Apply(s, DoOrganize(ChangeType(t, quantity, saleStart, saleEnd)), changed);
    GuardIsBlocked(s, req.user, req.event, now);
    GuardIsBlocked(s', req.user, req.event, now);
    CreatedIff(s', req, fault, now);
    ChangedType(s.stock, t, quantity, saleStart, saleEnd, changed, t);
  }

  /** A key that answers with an order makes every later request with it change nothing. The caller gets the
      recorded order, unless this user still has an open order for the event: then it is refused instead. */
  lemma AnsweredKey(s: State, req: Request, fault: Fault, now: Time)
    requires req.key.Some? && req.key.value in s.tokens && s.tokens[req.key.value].Done?
    requires s.tokens[req.key.value].order < |s.orders|
    ensures Create(s, req, fault, now) ==
            (s, if Blocked(s, req.user, req.event, now) then Failure(PendingOrderExists)
                else Success(s.tokens[req.key.value].order))
  {
    GuardIsBlocked(s, req.user, req.event, now);
  }

  /** A request that succeeds records its order under its key, and the same request sent again right away
      is refused rather than served from the record. */
  lemma RepeatIsRefused(s: State, req: Request, fault: Fault, again: Fault, now: Time)
    requires Shape(s) && Enters(s, DoCreate(req, fault), now)
    ensures var s' := Create(s, req, fault, now).0;
            && (req.key.Some? ==> req.key.value in s'.tokens && s'.tokens[req.key.value] == Done(|s.orders|))
            && Create(s', req, again, now) == (s', Failure(PendingOrderExists))
  {
    var s', o := Create(s, req, fault, now).0, |s.orders|;
    var s1 := Admitted(s, req, now);
    EntersCase(s, req, fault, now);
    AppendKeeps(s, s1);
    assert QueueOk(s.orders, QueueOf(s, req.event), req.event);
    EnqueueAdmits(s1, o, req.event, now);
    assert OpenOrder(s'.orders[o], req.user, req.event, now);
  }

  // An order that is enqueued stays PENDING and gets time: a lease, or the buffer of the waiting list.
  lemma EnqueueAdmits(s: State, o: OrderId, e: EventId, now: Time)
    requires Shape(s) && Outside(s, o, e)
    ensures var s' := Enqueue(s, o, e, now);
            && |s'.orders| == |s.orders| && s'.tokens == s.tokens
            && (s'.orders[o].expiresAt == now + LEASE || s'.orders[o].expiresAt == now + WAITING_BUFFER)
            && s'.orders[o] == s.orders[o].(expiresAt := s'.orders[o].expiresAt)
  {
    var q := QueueOf(s, e);
    EnqueueCases(s, o, e, now);
    if TimedOut(q, now) {
      assert QueueOk(s.orders, q, e);
      TimeOutShape(s, q.active.value, now);
    }
  }
}
