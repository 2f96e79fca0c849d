/** Every method of ticket-service that moves an order, its stock and its place in the waiting room,
    as one atomic step at a given clock reading. */
module Machine {
  import opened Common
  import opened Sequences
  import opened Orders
  import opened Inventory

  // The Redis keys of one event: `active`, `expires_at` (0 when missing) and the list `waiting`.
  datatype Queue = Queue(active: Option<OrderId>, lease: nat, waiting: seq<OrderId>)

  const EMPTY_QUEUE := Queue(None, 0, [])

  // The values an idempotency key takes in Redis.
  datatype Token = Processing | Done(order: OrderId)

  type Key = nat

  datatype State = State(
    orders: seq<Order>,
    queues: map<EventId, Queue>,
    stock: Stock,
    tickets: seq<Ticket>,
    tokens: map<Key, Token>)

  const LEASE: nat := 180 * SECOND
  const WAITING_BUFFER: nat := 7200 * SECOND
  const PAYMENT_WINDOW: nat := 900 * SECOND

  function QueueOf(s: State, e: EventId): Queue {
    if e in s.queues then s.queues[e] else EMPTY_QUEUE
  }

  function WithQueue(s: State, e: EventId, q: Queue): (r: State)
    ensures forall f :: QueueOf(r, f) == if f == e then q else QueueOf(s, f)
  {
    s.(queues := s.queues[e := q])
  }

  function WithExpiry(s: State, o: OrderId, t: Time): State {
    if o < |s.orders| then s.(orders := s.orders[o := s.orders[o].(expiresAt := t)]) else s
  }

  // ---- queue_service.go ----

  // The order takes the active slot with a fresh lease, in Redis and in the database.
  function Promote(s: State, e: EventId, o: OrderId, now: Time): State {
    WithExpiry(WithQueue(s, e, Queue(Some(o), Unix(now + LEASE), QueueOf(s, e).waiting)), o, now + LEASE)
  }

  // The order goes to the back of the waiting list.
  function Push(s: State, e: EventId, o: OrderId, now: Time): State {
    var q := QueueOf(s, e);
    WithExpiry(WithQueue(s, e, q.(waiting := q.waiting + [o])), o, now + WAITING_BUFFER)
  }

  // How many dead entries stand before the first order that is still PENDING.
  function FirstPending(orders: seq<Order>, w: seq<OrderId>): (k: nat)
    ensures k <= |w|
    ensures forall i :: 0 <= i < k ==> !IsPending(orders, w[i])
    ensures k < |w| ==> IsPending(orders, w[k])
  {
    if w == [] || IsPending(orders, w[0]) then 0 else 1 + FirstPending(orders, w[1..])
  }

  // `AdvanceQueue`: pop until a PENDING order comes up, promote it, or clear the slot.
  function Advance(s: State, e: EventId, now: Time): (r: State)
    ensures !TimedOut(QueueOf(r, e), now)
  {
    var w := QueueOf(s, e).waiting;
    var k := FirstPending(s.orders, w);
    UnixShift(now, 180);
    if k < |w|
    then Promote(WithQueue(s, e, QueueOf(s, e).(waiting := w[k + 1..])), e, w[k], now)
    else WithQueue(s, e, EMPTY_QUEUE)
  }

  // The strict test of `EnqueueOrder`.
  predicate TimedOut(q: Queue, now: Time) {
    q.active.Some? && q.lease > 0 && Unix(now) > q.lease
  }

  // The test of `CheckAndAdvanceExpiredActive`, which already holds in the last second of the lease.
  predicate LeaseOver(q: Queue, now: Time) {
    q.active.Some? && q.lease > 0 && Unix(now) >= q.lease
  }

  // The two calls every timeout branch makes: cancel, which advances, and advance once more.
  function TimeOut(s: State, e: EventId, o: OrderId, now: Time): State {
    Advance(Cancel(s, o, now), e, now)
  }

  function Enqueue(s: State, o: OrderId, e: EventId, now: Time): State
    decreases TimedOut(QueueOf(s, e), now)
  {
    var q := QueueOf(s, e);
    if q.active.None? then Promote(s, e, o, now)
    else if TimedOut(q, now) then Enqueue(TimeOut(s, e, q.active.value, now), o, e, now)
    else Push(s, e, o, now)
  }

  // `CheckAndAdvanceExpiredActive`.
  function CheckActive(s: State, e: EventId, now: Time): State {
    var q := QueueOf(s, e);
    if q.active.None? then (if q.waiting != [] then Advance(s, e, now) else s)
    else if LeaseOver(q, now) then TimeOut(s, e, q.active.value, now)
    else s
  }

  datatype Error =
    | PendingOrderExists | OrderProcessing
    | TicketInactive | SaleNotStarted | SaleEnded | EventEnded | EventNotPublished
    | TicketsSoldOut | ReserveFailed | OrderInsertFailed | ItemInsertFailed
    | OrderNotFound | AccessDenied | AlreadyPaid

  datatype QueueStatus =
    | Completed
    | WasCancelled
    | Expired
    | Active(secondsRemaining: nat)
    | Waiting(position: nat)

  // `GetOrderQueueStatus`, which moves the queue while it answers.
  function AskStatus(s: State, o: OrderId, user: Option<UserId>, now: Time): (State, Result<QueueStatus, Error>) {
    if o >= |s.orders| then (s, Failure(OrderNotFound))
    else if user.Some? && s.orders[o].user != user.value then (s, Failure(AccessDenied))
    else if s.orders[o].status.Paid? then (s, Success(Completed))
    else if s.orders[o].status.Cancelled? then (s, Success(WasCancelled))
    else if now > s.orders[o].expiresAt then (TimeOut(s, s.orders[o].event, o, now), Success(Expired))
    else Place(CheckActive(s, s.orders[o].event, now), s.orders[o].event, o, now)
  }

  // The second half of `GetOrderQueueStatus`: find the order in the slot or the list, or put it there.
  function Place(s: State, e: EventId, o: OrderId, now: Time): (State, Result<QueueStatus, Error>) {
    var q := QueueOf(s, e);
    if q.active == Some(o) then
      if q.lease <= Unix(now) then (TimeOut(s, e, o, now), Success(Expired))
      else (s, Success(Active(q.lease - Unix(now))))
    else if o in q.waiting then (s, Success(Waiting(|Before(q.waiting, o)| + 2)))
    else if q.active.None? then (Promote(s, e, o, now), Success(Active(180)))
    else (Push(s, e, o, now), Success(Waiting(|q.waiting| + 2)))
  }

  // `CancelOrderInQueue`.
  function UserCancel(s: State, o: OrderId, user: Option<UserId>, now: Time): (State, Result<(), Error>) {
    if o >= |s.orders| then (s, Failure(OrderNotFound))
    else if user.Some? && s.orders[o].user != user.value then (s, Failure(AccessDenied))
    else if s.orders[o].status.Paid? then (s, Failure(AlreadyPaid))
    else
      var e := s.orders[o].event;
      var s1 := Cancel(s, o, now);
      var q := QueueOf(s1, e);
      if q.active == Some(o) then (Advance(s1, e, now), Success(()))
      else (WithQueue(s1, e, q.(waiting := Without(q.waiting, o))), Success(()))
  }

  // ---- ticket_service.go ----

  function ReleaseAll(st: Stock, items: seq<Item>): Stock
    decreases |items|
  {
    if items == [] then st
    else ReleaseAll(Release(st, items[0].ticketType, items[0].quantity), items[1..])
  }

  // The database and stock half of `CancelOrder`; the status is not looked at.
  function MarkCancelled(s: State, o: OrderId): State
    requires o < |s.orders|
  {
    s.(orders := s.orders[o := s.orders[o].(status := Cancelled)],
       stock := ReleaseAll(s.stock, s.orders[o].items))
  }

  // `CancelOrder`.
  function Cancel(s: State, o: OrderId, now: Time): State {
    if o >= |s.orders| then s
    else
      var e := s.orders[o].event;
      var s1 := MarkCancelled(s, o);
      var q := QueueOf(s1, e);
      if q.active == Some(o) then Advance(s1, e, now)
      else WithQueue(s1, e, q.(waiting := Without(q.waiting, o)))
  }

  // The database half of `HandlePaymentSuccess`; only PAID is looked at.
  function MarkPaid(s: State, o: OrderId): State
    requires o < |s.orders|
  {
    s.(orders := s.orders[o := s.orders[o].(status := Paid)],
       tickets := s.tickets + TicketsFor(o, s.orders[o].items))
  }

  // `HandlePaymentSuccess`, which advances the queue whether or not the order was active.
  function Pay(s: State, o: OrderId, now: Time): State {
    if o >= |s.orders| || s.orders[o].status.Paid? then s
    else Advance(MarkPaid(s, o), s.orders[o].event, now)
  }

  datatype Request = Request(user: UserId, event: EventId, ticketType: TypeId, quantity: Quantity, key: Option<Key>)

  // Which INSERT of `CreateOrder` fails, if any.
  datatype Fault = NoFault | OrderInsert | ItemInsert

  predicate HasOpenOrder(s: State, user: UserId, e: EventId, now: Time) {
    exists o | 0 <= o < |s.orders| :: OpenOrder(s.orders[o], user, e, now)
  }

  predicate OpenOrder(order: Order, user: UserId, e: EventId, now: Time) {
    order.user == user && order.event == e && order.status.Pending? && order.expiresAt > now
  }

  // What an earlier request with the same key has left: an answer, or nothing to stop this one.
  function Replay(s: State, key: Option<Key>): Option<Result<OrderId, Error>> {
    if key.None? || key.value !in s.tokens then None
    else match s.tokens[key.value]
      case Processing => Some(Failure(OrderProcessing))
      case Done(o) => Some(if o < |s.orders| then Success(o) else Failure(OrderProcessing))
  }

  // The ticket-type checks of `CreateOrder`, in order; a failed lookup skips them.
  function Objection(st: Stock, t: TypeId, now: Time): Option<Error> {
    if t !in st.rows then None
    else
      var row := st.rows[t];
      if !row.isActive then Some(TicketInactive)
      else if row.saleStart.Some? && now < row.saleStart.value then Some(SaleNotStarted)
      else if row.saleEnd.Some? && now > row.saleEnd.value then Some(SaleEnded)
      else if now > row.eventEnd then Some(EventEnded)
      else if !row.published then Some(EventNotPublished)
      else None
  }

  function SetToken(s: State, key: Option<Key>, token: Token): State {
    if key.None? then s else s.(tokens := s.tokens[key.value := token])
  }

  function DropToken(s: State, key: Option<Key>): State {
    if key.None? then s else s.(tokens := s.tokens - {key.value})
  }

  // `CreateOrder`.
  function Create(s: State, req: Request, fault: Fault, now: Time): (State, Result<OrderId, Error>) {
    var replay := Replay(s, req.key);
    if HasOpenOrder(s, req.user, req.event, now) then (s, Failure(PendingOrderExists))
    else if replay.Some? then (s, replay.value)
    else CreateOwned(SetToken(s, req.key, Processing), req, fault, now)
  }

  // `CreateOrder` from the point where it owns its idempotency key.
  function CreateOwned(s: State, req: Request, fault: Fault, now: Time): (State, Result<OrderId, Error>) {
    var objection := Objection(s.stock, req.ticketType, now);
    var (stock, reservation) := Reserve(s.stock, req.ticketType, req.quantity, now);
    var reserved := s.(stock := stock);
    var undone := DropToken(s.(stock := Release(stock, req.ticketType, req.quantity)), req.key);
    if objection.Some? then (DropToken(s, req.key), Failure(objection.value))
    else if reservation.SoldOut? then (DropToken(reserved, req.key), Failure(TicketsSoldOut))
    else if reservation.Refused? then (DropToken(reserved, req.key), Failure(ReserveFailed))
    else match fault
      case OrderInsert => (undone, Failure(OrderInsertFailed))
      case ItemInsert =>
        (undone.(orders := s.orders + [NewOrder(req, Cancelled, [], now)]), Failure(ItemInsertFailed))
      case NoFault => (Enqueue(Admit(s, req, now), |s.orders|, req.event, now), Success(|s.orders|))
  }

  function NewOrder(req: Request, status: Status, items: seq<Item>, now: Time): Order {
    Order(req.user, req.event, status, now + PAYMENT_WINDOW, items)
  }

  // The stock is taken, the order and its item are inserted, and the key answers with the order.
  function Admit(s: State, req: Request, now: Time): State {
    SetToken(s, req.key, Done(|s.orders|)).(
      orders := s.orders + [NewOrder(req, Pending, [Item(req.ticketType, req.quantity)], now)],
      stock := Reserve(s.stock, req.ticketType, req.quantity, now).0)
  }

  // `CreatePaymentToken` up to the call that leaves the system: it may move the queue.
  function PaymentTurn(s: State, o: OrderId, user: Option<UserId>, now: Time): (State, bool) {
    if o >= |s.orders| || (user.Some? && s.orders[o].user != user.value) || !s.orders[o].status.Pending?
    then (s, false)
    else
      var s1 := CheckActive(s, s.orders[o].event, now);
      var active := QueueOf(s1, s.orders[o].event).active;
      (s1, active.None? || active == Some(o))
  }

  // ---- expiry_worker.go ----

  // A result of `GetExpiredPendingOrders`, whose row order the query leaves open.
  ghost predicate IsSnapshot(s: State, snapshot: seq<OrderId>, now: Time) {
    && NoDup(snapshot)
    && forall o: OrderId :: o in snapshot <==> IsPending(s.orders, o) && s.orders[o].expiresAt < now
  }

  function Sweep(s: State, snapshot: seq<OrderId>, now: Time): State
    decreases |snapshot|
  {
    if snapshot == [] then s else Sweep(Cancel(s, snapshot[0], now), snapshot[1..], now)
  }

  // ---- whole runs ----

  datatype Step =
    | DoCreate(request: Request, fault: Fault)
    | DoPay(order: OrderId)
    | DoCancel(order: OrderId)
    | DoUserCancel(order: OrderId, user: Option<UserId>)
    | DoStatus(order: OrderId, user: Option<UserId>)
    | DoPaymentTurn(order: OrderId, user: Option<UserId>)
    | DoSweep(snapshot: seq<OrderId>)
    | DoOrganize(change: Change)

  function Apply(s: State, step: Step, now: Time): State {
    match step
    case DoCreate(req, fault) => Create(s, req, fault, now).0
    case DoPay(o) => Pay(s, o, now)
    case DoCancel(o) => Cancel(s, o, now)
    case DoUserCancel(o, user) => UserCancel(s, o, user, now).0
    case DoStatus(o, user) => AskStatus(s, o, user, now).0
    case DoPaymentTurn(o, user) => PaymentTurn(s, o, user, now).0
    case DoSweep(snapshot) => Sweep(s, snapshot, now)
    case DoOrganize(change) => s.(stock := Organize(s.stock, change, now))
  }

  // A sweep works on what the query returned at that instant; a new ticket type gets an id that is used nowhere.
  ghost predicate Enabled(s: State, step: Step, now: Time) {
    && (step.DoSweep? ==> IsSnapshot(s, step.snapshot, now))
    && (step.DoOrganize? && step.change.AddType? ==>
          && step.change.ticketType !in s.stock.rows && step.change.ticketType !in s.stock.counter
          && Held(s.orders, step.change.ticketType) == 0)
  }

  // A run is a list of steps with their clock readings; the clock does not go back.
  type Run = seq<(Step, Time)>

  function Exec(s: State, run: Run): State
    decreases |run|
  {
    if run == [] then s else Exec(Apply(s, run[0].0, run[0].1), run[1..])
  }

  // Every sweep of the run works on a true snapshot.
  ghost predicate Possible(s: State, run: Run)
    decreases |run|
  {
    run == [] || (Enabled(s, run[0].0, run[0].1) && Possible(Apply(s, run[0].0, run[0].1), run[1..]))
  }
}
