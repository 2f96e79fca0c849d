/** The two stock counters of a ticket type: the Redis counter that the Lua scripts guard, and the
    event-service row (`quantity`, `sold`) behind it. */
module Inventory {
  import opened Common

  // A row of `ticket_types` joined with the columns of its event that the checks read.
  datatype TicketType = TicketType(
    event: EventId,
    quantity: nat,
    sold: nat,
    isActive: bool,
    saleStart: Option<Time>,
    saleEnd: Option<Time>,
    published: bool,
    eventEnd: Time)

  datatype Stock = Stock(counter: map<TypeId, int>, rows: map<TypeId, TicketType>)

  datatype Reservation = Reserved | SoldOut | Refused

  predicate OnSale(row: TicketType, now: Time) {
    && row.isActive
    && (row.saleStart.Some? ==> row.saleStart.value <= now)
    && (row.saleEnd.Some? ==> now <= row.saleEnd.value)
    && now <= row.eventEnd
  }

  function Available(row: TicketType): (r: nat)
    ensures r <= row.quantity
    ensures row.sold <= row.quantity ==> r == row.quantity - row.sold
  {
    if row.quantity < row.sold then 0 else row.quantity - row.sold
  }

  // Event-service `ReserveTickets`: the checks of the handler, then the guarded increment.
  predicate Grants(st: Stock, t: TypeId, n: Quantity, now: Time) {
    t in st.rows && OnSale(st.rows[t], now) && st.rows[t].published
    && st.rows[t].quantity - st.rows[t].sold >= n
  }

  function Increment(st: Stock, t: TypeId, n: Quantity, now: Time): Stock {
    if Grants(st, t, n, now)
    then st.(rows := st.rows[t := st.rows[t].(sold := st.rows[t].sold + n)])
    else st
  }

  // Event-service `ReleaseTickets`: the guarded decrement.
  function Decrement(st: Stock, t: TypeId, n: Quantity): Stock {
    if t in st.rows && st.rows[t].sold >= n
    then st.(rows := st.rows[t := st.rows[t].(sold := st.rows[t].sold - n)])
    else st
  }

  // `ReserveTicketStock`: the Lua script, and on a missing key the load followed by a second try.
  function Reserve(st: Stock, t: TypeId, n: Quantity, now: Time): (Stock, Reservation) {
    if t in st.counter then
      if st.counter[t] >= n
      then (Increment(st.(counter := st.counter[t := st.counter[t] - n]), t, n, now), Reserved)
      else (st, SoldOut)
    else if t !in st.rows || !OnSale(st.rows[t], now) then
      (Increment(st, t, n, now), if Grants(st, t, n, now) then Reserved else Refused)
    else
      var loaded := Available(st.rows[t]);
      if loaded < n
      then (st.(counter := st.counter[t := loaded]), SoldOut)
      else (Increment(st.(counter := st.counter[t := loaded - n]), t, n, now), Reserved)
  }

  // `ReleaseTicketStock`: the Lua script does nothing on a missing key.
  function Release(st: Stock, t: TypeId, n: Quantity): Stock {
    var st1 := if t in st.counter
               then st.(counter := st.counter[t := st.counter[t] + n])
               else st;
    Decrement(st1, t, n)
  }

  // `PrewarmTicketStock`: the counter of every active type of the event is set from its row.
  function Prewarm(st: Stock, e: EventId): Stock {
    st.(counter := st.counter
          + (map t | t in st.rows && st.rows[t].event == e && st.rows[t].isActive :: Available(st.rows[t])))
  }

  // What `CreateTicketType` and `UpdateTicketType` write to the counter for a stored row.
  function CounterFor(row: TicketType, now: Time): nat {
    if row.saleEnd.Some? && row.saleEnd.value < now then 0 else Available(row)
  }

  function StoreType(st: Stock, t: TypeId, row: TicketType, now: Time): Stock {
    Stock(st.counter[t := CounterFor(row, now)], st.rows[t := row])
  }

  // `UpdateTicketType`: an UPDATE of a missing row changes nothing.
  function UpdateType(st: Stock, t: TypeId, quantity: nat, saleStart: Time, saleEnd: Time, now: Time): Stock {
    if t !in st.rows then st
    else
      var row := st.rows[t].(quantity := quantity, saleStart := Some(saleStart), saleEnd := Some(saleEnd));
      StoreType(st, t, row, now)
  }

  // `CreateTicketType`: nothing of a new type is sold, and it is active.
  function CreateType(st: Stock, t: TypeId, row: TicketType, now: Time): Stock {
    StoreType(st, t, row.(sold := 0, isActive := true), now)
  }

  // `DeleteTicketType` leaves the counter alone.
  function DeleteType(st: Stock, t: TypeId): Stock {
    st.(rows := st.rows - {t})
  }

  // `UpdateEvent` as the ticket types of the event see it; a published event is pre-warmed.
  function UpdateEvent(st: Stock, e: EventId, published: bool, eventEnd: Time): Stock {
    var st1 := st.(rows := map t | t in st.rows ::
                     if st.rows[t].event == e then st.rows[t].(published := published, eventEnd := eventEnd)
                     else st.rows[t]);
    if published then Prewarm(st1, e) else st1
  }

  // `DeleteEvent` takes the rows of its ticket types along, by ON DELETE CASCADE, and leaves their counters.
  function DeleteEvent(st: Stock, e: EventId): Stock {
    st.(rows := map t | t in st.rows && st.rows[t].event != e :: st.rows[t])
  }

  // What an organizer does in event-service that ticket types see.
  datatype Change =
    | ChangeType(ticketType: TypeId, quantity: nat, saleStart: Time, saleEnd: Time)
    | Warm(event: EventId)
    | AddType(ticketType: TypeId, row: TicketType)
    | DropType(ticketType: TypeId)
    | ChangeEvent(event: EventId, published: bool, eventEnd: Time)
    | DropEvent(event: EventId)

  function Organize(st: Stock, change: Change, now: Time): Stock {
    match change
    case ChangeType(t, quantity, saleStart, saleEnd) => UpdateType(st, t, quantity, saleStart, saleEnd, now)
    case Warm(e) => Prewarm(st, e)
    case AddType(t, row) => CreateType(st, t, row, now)
    case DropType(t) => DeleteType(st, t)
    case ChangeEvent(e, published, eventEnd) => UpdateEvent(st, e, published, eventEnd)
    case DropEvent(e) => DeleteEvent(st, e)
  }

  /** The fast counter refines the slow one: what Redis still offers, the row still has. */
  ghost predicate Refines(st: Stock) {
    && (forall t :: t in st.counter ==> 0 <= st.counter[t])
    && (forall t :: t in st.rows ==> st.rows[t].sold <= st.rows[t].quantity)
    && (forall t :: t in st.rows && t in st.counter ==>
          st.counter[t] <= st.rows[t].quantity - st.rows[t].sold)
  }

  /** A row that passes the checks of the service at `now`, as `CreateOrder` sees it. */
  predicate Sellable(st: Stock, t: TypeId, now: Time) {
    t in st.rows ==> OnSale(st.rows[t], now) && st.rows[t].published
  }

  /** Once the Lua script accepts, the guarded increment behind it never lacks inventory. */
  lemma ScriptNeverOutrunsRow(st: Stock, t: TypeId, n: Quantity, now: Time)
    requires Refines(st) && Sellable(st, t, now)
    ensures var (st', r) := Reserve(st, t, n, now);
            && Refines(st')
            && (r.Reserved? && t in st.rows ==> st'.rows[t].sold == st.rows[t].sold + n)
            && (!r.Reserved? ==> st'.rows == st.rows)
            && (r.Reserved? && t !in st.rows ==> t in st.counter && st'.rows == st.rows)
  {
  }

  // How much of a type a buyer can still get: what the counter says, or what the row would be loaded with.
  function Offer(st: Stock, t: TypeId): int {
    if t in st.counter then st.counter[t]
    else if t in st.rows && st.rows[t].quantity > st.rows[t].sold then st.rows[t].quantity - st.rows[t].sold
    else 0
  }

  /** A request is granted exactly when that much is on offer, on a present and on a missing counter alike,
      and then exactly that much less is on offer. */
  lemma ReservedIff(st: Stock, t: TypeId, n: Quantity, now: Time)
    requires Sellable(st, t, now)
    ensures var (st', r) := Reserve(st, t, n, now);
            && (r.Reserved? <==> n <= Offer(st, t))
            && Offer(st', t) == Offer(st, t) - (if r.Reserved? then n else 0)
            && forall u :: u != t ==> Offer(st', u) == Offer(st, u)
  {
  }

  /** The fallback of a failed load never hands out tickets: the handler refuses for the same reason. */
  lemma FallbackNeverReserves(st: Stock, t: TypeId, n: Quantity, now: Time)
    requires t !in st.counter && (t !in st.rows || !OnSale(st.rows[t], now))
    ensures Reserve(st, t, n, now) == (st, Refused)
  {
  }

  /** Exactly how a reservation moves the counter: only a missing key is ever loaded, also when too little is
      left, unless the type is not on sale. */
  lemma ReserveMovesCounter(st: Stock, t: TypeId, n: Quantity, now: Time)
    ensures var (st', r) := Reserve(st, t, n, now);
            && (forall u :: u in st.counter ==> u in st'.counter)
            && (forall u :: u in st.counter ==>
                  st'.counter[u] == st.counter[u] - (if u == t && r.Reserved? then n else 0))
            && (forall u :: u in st'.counter && u !in st.counter ==> u == t)
            && (t !in st.counter ==> (t in st'.counter <==> t in st.rows && OnSale(st.rows[t], now)))
            && (t !in st.counter && t in st'.counter ==>
                  var left := st.rows[t].quantity - st.rows[t].sold;
                  st'.counter[t] == if r.Reserved? then left - n else if left < 0 then 0 else left)
  {
  }

  /** The script takes the stock and the handler behind it refuses, so the row never counts what was taken. */
  predicate TakenUncounted(st: Stock, t: TypeId, n: Quantity, now: Time) {
    && t in st.rows && !Grants(st, t, n, now)
    && if t in st.counter then n <= st.counter[t] else OnSale(st.rows[t], now) && n <= Available(st.rows[t])
  }

  /** A release of what was just reserved restores the counter, or leaves a missing one loaded; it restores the
      row unless the reservation was never counted there: then it takes what others have bought. */
  lemma ReleaseUndoesReserve(st: Stock, t: TypeId, n: Quantity, now: Time)
    requires Reserve(st, t, n, now).1.Reserved?
    ensures var st' := Release(Reserve(st, t, n, now).0, t, n);
            && (t in st.counter ==> st'.counter == st.counter)
            && (t !in st.counter ==> t in st.rows && st'.counter == st.counter[t := Available(st.rows[t])])
            && st'.rows == if TakenUncounted(st, t, n, now) && n <= st.rows[t].sold
                           then st.rows[t := st.rows[t].(sold := st.rows[t].sold - n)] else st.rows
  {
    var st1 := Reserve(st, t, n, now).0;
    var st' := Release(st1, t, n);
    if t in st.counter { assert st'.counter == st.counter; }
    if t !in st.rows || TakenUncounted(st, t, n, now) {
      assert st1.rows == st.rows;
    } else {
      assert st1.rows == st.rows[t := st.rows[t].(sold := st.rows[t].sold + n)];
      assert st'.rows == st.rows;
    }
  }

  /** A release keeps the refinement when the row still counts what is released. */
  lemma ReleaseKeepsRefines(st: Stock, t: TypeId, n: Quantity)
    requires Refines(st)
    requires t in st.rows ==> st.rows[t].sold >= n
    ensures Refines(Release(st, t, n))
  {
  }

  lemma PrewarmKeepsRefines(st: Stock, e: EventId)
    requires Refines(st)
    ensures Refines(Prewarm(st, e))
    ensures Prewarm(st, e).rows == st.rows
    ensures forall t :: t in st.rows && st.rows[t].event == e && st.rows[t].isActive ==>
              t in Prewarm(st, e).counter
              && Prewarm(st, e).counter[t] == st.rows[t].quantity - st.rows[t].sold
  {
  }

  /** A quota change keeps the refinement exactly when the quota is not set below `sold`. */
  lemma UpdateKeepsRefinesIff(st: Stock, t: TypeId, quantity: nat, saleStart: Time, saleEnd: Time, now: Time)
    requires Refines(st) && t in st.rows
    ensures Refines(UpdateType(st, t, quantity, saleStart, saleEnd, now)) <==> st.rows[t].sold <= quantity
  {
    var st' := UpdateType(st, t, quantity, saleStart, saleEnd, now);
    assert st'.rows[t].sold == st.rows[t].sold && st'.rows[t].quantity == quantity;
  }

  // ---- what is on offer after each write ----

  predicate SameRow(st: Stock, st': Stock, t: TypeId) {
    (t in st'.rows <==> t in st.rows) && (t in st.rows ==> st'.rows[t] == st.rows[t])
  }

  predicate SameCounter(st: Stock, st': Stock, t: TypeId) {
    (t in st'.counter <==> t in st.counter) && (t in st.counter ==> st'.counter[t] == st.counter[t])
  }

  /** After a known type is changed: its row has the new quota and sale dates, and its counter offers all that is
      not sold while the sale lasts, and nothing once it has ended or when more is sold than the quota. No other
      row or counter moves, and an unknown type changes nothing. */
  lemma ChangedType(st: Stock, t: TypeId, quantity: nat, saleStart: Time, saleEnd: Time, now: Time, u: TypeId)
    ensures var st' := Organize(st, ChangeType(t, quantity, saleStart, saleEnd), now);
            && (t !in st.rows ==> st' == st)
            && (u != t ==> SameRow(st, st', u) && SameCounter(st, st', u))
            && (t in st.rows ==>
                  && t in st'.rows && t in st'.counter
                  && st'.rows[t] == st.rows[t].(
                       quantity := quantity, saleStart := Some(saleStart), saleEnd := Some(saleEnd))
                  && (now <= saleEnd && st.rows[t].sold <= quantity ==>
                        st'.counter[t] == quantity - st.rows[t].sold)
                  && (now > saleEnd || st.rows[t].sold > quantity ==> st'.counter[t] == 0))
  {
  }

  /** A new type is active, nothing of it is sold, and the whole quota is on offer unless its sale has ended. */
  lemma NewType(st: Stock, t: TypeId, row: TicketType, now: Time, u: TypeId)
    ensures var st' := Organize(st, AddType(t, row), now);
            && (u != t ==> SameRow(st, st', u) && SameCounter(st, st', u))
            && t in st'.rows && t in st'.counter
            && st'.rows[t] == row.(sold := 0, isActive := true)
            && st'.counter[t] == if row.saleEnd != None && row.saleEnd.value < now then 0 else row.quantity
  {
  }

  /** A pre-warm, alone or after an update of a published event, offers all that is not sold of every active type
      of the event, whether or not its key was there, and moves no other counter. */
  lemma WarmedTypes(st: Stock, change: Change, now: Time, t: TypeId)
    requires change.Warm? || change.ChangeEvent?
    ensures var st' := Organize(st, change, now);
            if t in st.rows && st.rows[t].event == change.event && st.rows[t].isActive
               && (change.ChangeEvent? ==> change.published)
            then t in st'.counter && st'.counter[t] == if st.rows[t].quantity > st.rows[t].sold
                                                       then st.rows[t].quantity - st.rows[t].sold else 0
            else SameCounter(st, st', t)
  {
  }

  /** The rows after each change of an event, and after a deletion: those of the event take its state and end
      date, or go with it; all others, and every counter of what is deleted, stay. */
  lemma EventRows(st: Stock, change: Change, now: Time, t: TypeId)
    requires !change.ChangeType? && !change.AddType?
    ensures var st' := Organize(st, change, now);
            match change
            case Warm(_) => SameRow(st, st', t)
            case DropType(u) => (if t == u then t !in st'.rows else SameRow(st, st', t)) && SameCounter(st, st', t)
            case ChangeEvent(e, published, eventEnd) =>
              if t in st.rows && st.rows[t].event == e
              then t in st'.rows && st'.rows[t] == st.rows[t].(published := published, eventEnd := eventEnd)
              else SameRow(st, st', t)
            case DropEvent(e) =>
              (if t in st.rows && st.rows[t].event == e then t !in st'.rows else SameRow(st, st', t))
              && SameCounter(st, st', t)
            case _ => false
  {
  }

  /** The three answers of a reservation, from every stock and at any time: the counter alone decides when it is
      there, and the row, with its own checks, when it is not. */
  lemma ReserveAnswer(st: Stock, t: TypeId, n: Quantity, now: Time)
    ensures var row := if t in st.rows then Some(st.rows[t]) else None;
            var open := row.Some? && row.value.isActive && now <= row.value.eventEnd
                        && (row.value.saleStart == None || row.value.saleStart.value <= now)
                        && (row.value.saleEnd == None || now <= row.value.saleEnd.value);
            Reserve(st, t, n, now).1 ==
            if t in st.counter then (if n <= st.counter[t] then Reserved else SoldOut)
            else if !open then Refused
            else if n <= row.value.quantity - row.value.sold then Reserved else SoldOut
  {
  }

  /** The row counts a granted reservation if and only if it is on sale in a published event with that much left. */
  lemma ReservedRow(st: Stock, t: TypeId, n: Quantity, now: Time, u: TypeId)
    ensures var (st', r) := Reserve(st, t, n, now);
            if u == t && r.Reserved? && t in st.rows && st.rows[t].isActive && st.rows[t].published
               && now <= st.rows[t].eventEnd && n <= st.rows[t].quantity - st.rows[t].sold
               && (st.rows[t].saleStart == None || st.rows[t].saleStart.value <= now)
               && (st.rows[t].saleEnd == None || now <= st.rows[t].saleEnd.value)
            then t in st'.rows && st'.rows[t] == st.rows[t].(sold := st.rows[t].sold + n)
            else SameRow(st, st', u)
  {
  }

  /** A release gives the key, if it is there, what was taken, and the row, if it counts that much; a missing key
      stays missing and nothing else moves. */
  lemma ReleasedStock(st: Stock, t: TypeId, n: Quantity, u: TypeId)
    ensures var st' := Release(st, t, n);
            && (if u == t && t in st.counter then t in st'.counter && st'.counter[t] == st.counter[t] + n
                else SameCounter(st, st', u))
            && (if u == t && t in st.rows && st.rows[t].sold >= n
                then t in st'.rows && st'.rows[t] == st.rows[t].(sold := st.rows[t].sold - n)
                else SameRow(st, st', u))
  {
  }

  /** After a change or a creation during the sale, requests are granted as far as the quota is not sold. */
  lemma StoredTypeSells(st: Stock, t: TypeId, change: Change, n: Quantity, now: Time, later: Time)
    requires change.ChangeType? || change.AddType?
    requires change.ticketType == t && (change.ChangeType? ==> t in st.rows && now <= change.saleEnd)
    requires change.AddType? ==> change.row.saleEnd == None || now <= change.row.saleEnd.value
    ensures var st' := Organize(st, change, now);
            Reserve(st', t, n, later).1.Reserved? <==>
            n <= if change.ChangeType? then change.quantity - st.rows[t].sold else change.row.quantity
  {
    match change
    case ChangeType(_, quantity, saleStart, saleEnd) =>
      ChangedType(st, t, quantity, saleStart, saleEnd, now, t);
      ReserveAnswer(Organize(st, change, now), t, n, later);
    case AddType(_, row) =>
      NewType(st, t, row, now, t);
      ReserveAnswer(Organize(st, change, now), t, n, later);
  }
}
