# Verification of the Entra ticketing services

A Dafny model of the parts of the Entra backend that sell tickets and let people in, with proofs of what they
keep, and of exactly where they fall short of it. `dafny verify dfyconfig.toml` checks everything.

## What is modelled

**Orders, stock and the waiting room** (ticket-service, with the counters of event-service). `Machine` has one
function per service method over one state: the order table, the Redis keys of every event (`active`,
`expires_at`, `waiting`), both stock counters of every ticket type, the tickets and the idempotency keys. The
class `TicketService` is the same code as it runs, with its loops, its recursion and its updates in place; each
method is proved to do to the class's fields what its function does to the state. All theorems about runs are
about those functions, and so about the class.

- `WaitingRoom`, `RoomTheorems`: the shape of every queue, which every step of every run keeps; what holds only
  while no query comes in the last second of a lease; and which orders each step drops out of every queue.
- `Answers`, `Lifecycle`, `Expiry`: what callers are told, exactly; which steps settle an order; and which steps
  give it more time, so that no sweep takes a waiting order out of a line that moves.
- `Sweeper`: the expiry worker's loop over a snapshot that its own cancellations keep changing.
- `Fifo`, `Fairness`, `BoundedWaiting`: promotions follow the log of pushes, nobody overtakes, and every wait
  ends.
- `Conservation`, `Issuance`, `Compensation`: what each step does to counter, live orders and tickets; when
  nothing is oversold; what a failed creation leaves behind.
- `Inventory`, `StockKeeping`: the Redis counter refines the row behind it, and what is on offer after every
  reservation, release and write of an organizer.
- `Witnesses`: small rooms in which conditional guarantees are seen to fail without their condition.

**Interleavings.** `ReserveRace` splits reservations and releases at every call to Redis and event-service,
`Idempotency` splits concurrent order creations that share a key, and `Gate` runs scans, syncs and consumers one
SQL statement at a time over messages that may be lost, repeated or reordered. Besides safety under every
interleaving, each is shown to get its work done when nobody interferes: the split reservation is then the atomic
one, one order is created, and a valid ticket is let in.

**Smaller pieces.** `Withdrawals` (a rounding bound over runs), `EventCache` (a cached service against the
uncached one, and what that one answers) and `PaymentId` (the order id sent to the payment gateway and parsed
back, and exactly the texts that parse).

## How the model reads the code

- A service method is one step at one clock reading, in microseconds; the lease that Redis holds is in whole
  seconds, as the code writes it. The expiry query is evaluated at the same reading as its loop.
- Identifiers are the values that UUID texts parse to. The order table is a sequence and an order's id is its
  index, so a new order gets a fresh id.
- Redis, the database and event-service answer; the two INSERTs of an order creation may fail. `Fault` says
  which, and `Step` names everything else that comes from outside.
- An order carries the items it was created with; the code creates one item per order.
- `"SUKSES"` is compared against but never written, so it is the same as PAID.
- Money is exact: cents where the database stores two decimals, reals elsewhere.

## Where the code is weaker than its intent

Each point names the theorem with its condition, and where there is one the concrete input.

- A status query by the active order in the last second of its lease cancels it and puts it back, because one
  test is strict and the other is not (`LiveKeptIff`, `PollAtExpiry`). Its answer is then false
  (`StatusTrueIff`), sweeps never free the slot (`SweepsNeverFreeDeadSlot`), and an ordinary purchase that
  finds that slot timed out releases its stock a second time (`TotalAfter`, `PollThenPurchaseOversells`).
- Timeout branches advance twice, so the order promoted first is in no queue any more until it asks for its
  status (`LostAfter`, `TimeoutLosesNext`); if it is the one asking, it goes to the back (`NoOvertakingIff`,
  `PollSendsBack`).
- A payment always advances the queue, also when the paid order was not active (`LostAfter`,
  `PaymentOfWaitingLosesActive`).
- Cancelling or paying a CANCELLED order counts its stock twice (`TotalAfter`, `SecondLookBreaksBooks`), and a
  failed-payment notification after a successful one leaves tickets behind (`IssuanceIff`, `CancelAfterPayment`).
- With fewer than two PENDING orders waiting, the turn to pay is given to an order by the call that cancels it
  (`TurnAfterTimeOut`, `TurnForCancelled`).
- On a missing stock key, a caller may read the row after another caller has loaded the key, or while another
  process loads it, and the same stock is sold again (`LoadsKeptIff`, `LateReadOversells`,
  `SecondProcessOversells`, `ColdKeyOversells`). Between the two halves of a release, a sale can be missed by the
  row (`RefusedIff`, `HalfDoneReleaseHidesSale`), and a quota edit or pre-warm between a script and its increment
  puts the same stock on offer again (`WriteKeptIff`, `WriteBetweenOversells`).
- A deleted ticket type goes on being sold from its counter (`DeletedTypeStillSells`).
- Event-service may refuse to count a reservation that the script has granted, and ticket-service does not look:
  when an INSERT then fails, the release takes from the row a ticket that somebody else has bought
  (`FailedCreateUndone`, `FailedInsertTakesFromOthers`).
- README.md:81 of the repository promises that a repeated order request is answered with HTTP 429 or served from
  its record; while the order is open the pending-order guard refuses it before the record is read
  (`RepeatIsRefused`). It also calls the window 5 minutes; the code keeps the record for 24 hours.
- A withdrawal that leaves REJECTED is not checked against the balance (`DecisionCoveredIff`,
  `RevivalOverdraws`).
- Cached events are not invalidated under their slug or another spelling of their id (`FreshKeptIff`,
  `HeldElsewhereIsStale`, `RenamedStillRead`, `DeletedStillRead`).

## Model

| member | source | states |
|---|---|---|
| RoomTheorems.ShapeKept | ticket-service/internal/service/queue_service.go:31-361 | Every step from every state in shape, last-second queries included, keeps the shape of every queue: the active order is of its event, not PAID and not also waiting, its Redis lease equals its database `expires_at`, nobody waits twice, an empty slot has an empty list |
| RoomTheorems.ShapeOverRuns | ticket-service/internal/service/queue_service.go:31-361 | The shape over every run, without exception |
| RoomTheorems.LiveKeptIff | ticket-service/internal/service/queue_service.go:219-313 | What else belongs to the invariant, per event (the active order is PENDING and no CANCELLED order waits), survives a step if and only if the step is not a status query by the active order of that event in the last second of its lease |
| RoomTheorems.LiveOverRuns | ticket-service/internal/service/queue_service.go:219-313 | The same over every run without such a query on that event, whatever happens at other events |
| RoomTheorems.RoomKeptIff | ticket-service/internal/service/queue_service.go:52-361 | Both parts together over all events survive a step if and only if the step is not a last-second query |
| RoomTheorems.LostAfter | ticket-service/internal/service/queue_service.go:76-319 | Exactly which PENDING orders are in no queue after any step: those that were, minus the orders the step settles or puts back, plus the one it displaces |
| RoomTheorems.NothingLostIff | ticket-service/internal/service/queue_service.go:76-81 | From a room that misses nobody, a step loses an order if and only if it displaces one: a timeout branch that advances twice, or a payment of an order that is not active |
| RoomTheorems.NoOrderLost | ticket-service/internal/service/queue_service.go:31-361 | Over every run that displaces nobody, every PENDING order is in exactly one place: the slot or one position of its event's list |
| RoomTheorems.StatusKeeps | ticket-service/internal/service/queue_service.go:169-319 | The status query, which cancels, promotes and re-enqueues, keeps the shape; exactly which orders it loses and finds |
| RoomTheorems.PlaceLiveIff | ticket-service/internal/service/queue_service.go:253-318 | Promoting or re-enqueueing the asking order leaves a queue of orders that can be served if and only if that order is still PENDING |
| RoomTheorems.CreateKeeps | ticket-service/internal/service/ticket_service.go:208-368 | An order creation keeps the shape and loses an order only through a timeout it runs into |
| RoomTheorems.PayKeeps | ticket-service/internal/service/ticket_service.go:370-431 | A payment keeps the shape whatever was in the slot, and drops the PENDING active order if another one was paid |
| RoomTheorems.UserCancelKeeps | ticket-service/internal/service/queue_service.go:321-361 | The second clean-up of a user cancellation changes nothing after the first, and nobody is lost |
| RoomTheorems.TurnIsActive | ticket-service/internal/service/ticket_service.go:498-516 | Unless the lease is over, the turn to pay is given if and only if the order exists, the caller is its owner or internal, it is PENDING, and it is the active order or, when the slot is empty, was dropped out of every queue |
| RoomTheorems.TurnAfterTimeOut | ticket-service/internal/service/ticket_service.go:508-516 | Once it is over, the turn goes to exactly the second PENDING order of the list, or, when there are fewer than two, to whoever asks, the order that the call has just cancelled included |
| Answers.TurnOnlyForOwner | ticket-service/internal/service/ticket_service.go:494-506 | From every state and for every caller, a turn is given only for an order that exists, to its owner or an internal caller, and that was PENDING before; otherwise the answer is no and nothing changes |
| Lifecycle.LifeAfter | ticket-service/internal/service/ticket_service.go:370-482 | Exactly what becomes of the status of every order in every step: PAID, CANCELLED by whom it may concern, or CANCELLED because its time ran out, in seconds; its user, event and items never change |
| Expiry.TimeAfter | ticket-service/internal/service/queue_service.go:31-319 | Exactly what becomes of `expires_at` of every order in every step: a waiting order keeps it unless it is sent back, who newly waits has two hours from now, who newly holds a slot has 180 s from now and keeps them unless it asks in its last second, and who leaves every queue keeps its time or a lease taken away at once |
| Expiry.NewOrderRow | ticket-service/internal/service/ticket_service.go:294-365 | The row of a new order: its request, PENDING, in the slot with 180 s or at the very back of the list with two hours |
| Expiry.TimeOverRuns | ticket-service/internal/service/queue_service.go:285-292 | Over every run in which it keeps waiting, an order keeps its `expires_at` |
| Expiry.WaitingIsNeverSwept | ticket-service/internal/worker/expiry_worker.go:35-50 | On the runs on which waiting ends: an order with n orders ahead and at least 182 n seconds of its time left is in no snapshot while it waits |
| Expiry.TwoHoursAreEnough | ticket-service/internal/service/queue_service.go:88 | So two hours are enough for an order that joins a list with 182 n < 7200 |
| WaitingRoom.AdvanceShape | ticket-service/internal/service/queue_service.go:111-138 | The advance stops: the list left is a suffix of the old one, everything skipped was dead, the first PENDING entry is promoted with a lease of 180 s in both stores, and no PENDING entry is dropped |
| WaitingRoom.AdvanceOk | ticket-service/internal/service/queue_service.go:111-138 | The advance restores the shape from a sound list alone, whatever the slot held |
| WaitingRoom.AdvanceLoses | ticket-service/internal/service/queue_service.go:111-138 | Advancing over an occupied slot loses its PENDING order and nobody else |
| WaitingRoom.CancelOk | ticket-service/internal/service/ticket_service.go:433-482 | A cancellation of any order, in any status, keeps the shape |
| WaitingRoom.CancelLoses | ticket-service/internal/service/ticket_service.go:469-479 | A cancellation loses nobody |
| WaitingRoom.CancelSlot | ticket-service/internal/service/ticket_service.go:469-479 | The slot is handed to the first PENDING order of the list exactly when the cancelled order held it |
| WaitingRoom.TimeOutOk | ticket-service/internal/service/queue_service.go:160-166 | Cancelling and advancing once more keeps the shape |
| WaitingRoom.TimeOutLoses | ticket-service/internal/service/queue_service.go:160-166 | The double advance of a timeout loses exactly the order that the first advance promoted, or the PENDING active one if another order timed out |
| WaitingRoom.EnqueueCases | ticket-service/internal/service/queue_service.go:76-81 | The recursion of the enqueue happens at most once: after one timeout the slot is empty or freshly leased |
| WaitingRoom.EnqueueOk | ticket-service/internal/service/queue_service.go:52-98 | An enqueued order is in a queue, the shape is kept, and at most the displaced order is lost |
| Sweeper.StillPendingWhenReached | ticket-service/internal/worker/expiry_worker.go:42-49 | Each order of the snapshot is still PENDING when the loop reaches it, although earlier cancellations promote others |
| Sweeper.SweepCorrect | ticket-service/internal/worker/expiry_worker.go:35-50 | A sweep cancels the overdue PENDING orders and no others, releases the stock of each once, leaves none of them in any queue and nothing overdue PENDING |
| Sweeper.SecondSweepIdle | ticket-service/internal/repository/db/orders.sql.go:151-153 | A second sweep at the same instant selects nothing and changes nothing |
| Fifo.FirstInFirstOut | ticket-service/internal/service/queue_service.go:84-137 | First in, first out, for every run from every state: of the log of all pushes, re-pushes included, promotions from the list come in order from a consumed prefix and whoever waits stands in order in the rest; so whoever was promoted from the list was pushed before whoever still waits; and whoever is seen to become active was promoted from the list or entered a free slot |
| Fifo.StepGoes | ticket-service/internal/service/queue_service.go:101-361 | What each step pushes, promotes and lets in accounts for its whole change of list and slot: no order leaves the list still PENDING without being promoted, nobody becomes active but by promotion or through a free slot, and no order becomes PENDING again |
| Fifo.StepLetsIn | ticket-service/internal/service/queue_service.go:52-98 | Pushes and entries are real: a step brings in at most one order, the new one or the one asking for its status, to the very back of the list or into the slot when nobody waits |
| Fifo.SplitAgain | ticket-service/internal/service/queue_service.go:111-138 | Two changes of the list in a row are again one: a cut of the log for each gives a cut for both |
| Fairness.NoOvertakingIff | ticket-service/internal/service/queue_service.go:101-139 | Across any step of any run an order that keeps waiting keeps its line, shrunk and in order, if and only if the step does not send that order to the back |
| Fairness.StepServes | ticket-service/internal/service/queue_service.go:101-139 | Every step, last-second queries included: a new lease starts now, and no waiting order is overtaken unless it is sent back |
| Fairness.NextIsDisplaced | ticket-service/internal/service/queue_service.go:162-165 | Why an order can be sent back: the next in line is promoted by the first advance of a timeout and displaced by the second |
| Fairness.StatusTrueIff | ticket-service/internal/service/queue_service.go:180-318 | Whoever may see an order gets an answer, and it is true of the state the query leaves (EXPIRED cancelled and out of the queue, ACTIVE the slot and the seconds left of its lease, WAITING behind exactly the people ahead) if and only if the query is not a last-second one |
| Fairness.SentBackBehind | ticket-service/internal/service/queue_service.go:310-318 | An order that polls its status at that moment ends up behind an order that was behind it |
| BoundedWaiting.NoOvertaking | ticket-service/internal/service/queue_service.go:111-138 | First come, first served over every run: while an order waits without being sent back, its line only shrinks in order, and whoever becomes active was ahead of it from the start |
| BoundedWaiting.WaitingEnds | ticket-service/internal/worker/expiry_worker.go:21-50 | Bounded waiting: with sweeps at most 2 s apart and the active order of this event PENDING throughout, an order with n orders ahead leaves the list within 182 n seconds, whatever else happens here or at other events |
| BoundedWaiting.CalmStaysPending | ticket-service/internal/service/queue_service.go:219-313 | The active order is PENDING throughout, when it is to begin with, on every run without a last-second query on this event |
| BoundedWaiting.SweepsNeverFreeDeadSlot | ticket-service/internal/worker/expiry_worker.go:35-50 | That condition is needed: a slot whose order is not PENDING is never freed by sweeps, however many come |
| BoundedWaiting.LeasesFresh | ticket-service/internal/service/queue_service.go:29 | On such runs no lease outlives the last sweep by being overdue, and none ends later than 180 s from now |
| BoundedWaiting.HowItLeaves | ticket-service/internal/service/queue_service.go:111-138 | A PENDING order that leaves the list for no queue was displaced by that step |
| Conservation.TotalAfter | ticket-service/internal/service/ticket_service.go:433-482 | Exactly what a step of ticket-service does to counter plus what PENDING and PAID orders hold, per type: nothing, or it adds the items of the CANCELLED order that it pays or cancels again, by itself or through a timeout of a slot that a last-second query left to a CANCELLED order |
| Conservation.ConservationIff | ticket-service/internal/service/ticket_service.go:433-482 | So the books balance across a step if and only if it hits no CANCELLED order with counted items again |
| Conservation.TotalOverRuns | ticket-service/internal/service/ticket_service.go:116-198 | Over every run, counter plus holdings grow by exactly what the single steps create |
| Conservation.ConservedOverRuns | ticket-service/internal/service/ticket_service.go:116-198 | Conservation over every run in which no CANCELLED order is hit again |
| Conservation.TimeOutsHitPending | ticket-service/internal/service/queue_service.go:76-81 | While the room invariant holds, timeouts and sweeps only ever hit PENDING orders |
| Conservation.ThinnedSums | ticket-service/internal/service/ticket_service.go:457-460 | Timeouts and sweeps take from the live orders exactly what they release, except what they release for orders CANCELLED before, and leave what is paid |
| Conservation.CancelTotal | ticket-service/internal/service/ticket_service.go:439-460 | What a cancellation does to the total: nothing for a live order, all its items for a CANCELLED one |
| Conservation.PayTotal | ticket-service/internal/service/ticket_service.go:381-392 | The same for a payment |
| Conservation.EnteredTotal | ticket-service/internal/service/ticket_service.go:293-365 | An order that is made moves its quantity from the counter to the holdings; only a timeout of a CANCELLED slot on the way can add to the total |
| Conservation.RefusedTotal | ticket-service/internal/service/ticket_service.go:208-348 | A creation that is refused or fails leaves the total as it was |
| Issuance.IssuanceIff | ticket-service/internal/service/ticket_service.go:370-431 | Each PAID order has exactly the tickets it ordered per type and no other order has any; this survives any step, replayed notifications included, if and only if the step is not a failed-payment notification for a PAID order with items |
| Issuance.IssuedOverRuns | ticket-service/internal/service/ticket_service.go:591-601 | The same over whole runs in which no PAID order is cancelled |
| Issuance.BackedKeptIff | ticket-service/internal/service/ticket_service.go:124-198 | The counter offers no more than the row has left and the row counts what live orders hold: this survives a step, of the organizer or of a buyer, if and only if the step sets no quota below `sold` and hits no CANCELLED order that the rows have no room for |
| Issuance.OneItemFits | event-service/internal/repository/db/ticket_types.sql.go:63-67 | What that room is for an order of one item: the row counts that much more than live orders hold, or counts less than the item while the counter lags behind by as much |
| Issuance.OrganizeBackedIff | event-service/internal/service/event_service.go:336-499 | Of what an organizer does to ticket types and events, deletions included, only a quota below `sold` breaks it |
| Issuance.BackedOverRuns | ticket-service/internal/service/ticket_service.go:124-198 | The same over every run of such steps |
| Issuance.NoOverselling | ticket-service/internal/service/ticket_service.go:116-198 | After any such run tickets issued <= `sold` <= `quantity`, and tickets plus the counter stay within the quota |
| Issuance.StepNonNegative | ticket-service/internal/service/ticket_service.go:38-50 | The counter never becomes negative, whatever the state and the step |
| Issuance.NonNegativeOverRuns | ticket-service/internal/service/ticket_service.go:38-50 | The same over every run |
| Issuance.CounterBoundsTickets | ticket-service/internal/service/ticket_service.go:38-60 | Whatever the row says, tickets and live orders never exceed the counter and holdings the run began with |
| Issuance.UnkeptLeavesStock | ticket-service/internal/service/ticket_service.go:320-348 | From every stock, a reservation that is not kept leaves every present counter as it was, and the row too unless the row never counted it; then the row gives up that much of what others have bought |
| Compensation.FailedCreateUndone | ticket-service/internal/service/ticket_service.go:294-348 | From every state, a creation that returns an error, whichever INSERT fails, leaves queues, present counters, tickets, keys, PENDING orders and held quantities as before; and the rows as before if and only if it is not an INSERT that fails for stock which the key offered and the row could not count: then the row loses that much of what others have bought |
| Compensation.CreatedIff | ticket-service/internal/service/ticket_service.go:222-306 | A new order is made if and only if no PENDING order of this user for this event has time left, the key is unused, there is no objection, enough is on offer and no INSERT fails |
| Answers.PendingGuardIff | ticket-service/internal/repository/db/orders.sql.go:86-90 | A request is refused for an open order if and only if some order in the table is of its user, of its event, PENDING and not yet expired |
| Answers.OtherOrdersStopNobody | ticket-service/internal/service/ticket_service.go:222-229 | Open orders for other events or of other users stop nobody |
| Answers.CreateAnswer | ticket-service/internal/service/ticket_service.go:208-368 | The answer to every request from every state: the open order, then the record of the key, then the first objection, then what is on offer, then the INSERTs |
| Answers.ObjectionIff | ticket-service/internal/service/ticket_service.go:255-291 | The checks object exactly to a known type that is not on sale, and with the first reason that applies |
| Answers.FailedRow | ticket-service/internal/service/ticket_service.go:320-348 | A failed request leaves a CANCELLED order without items if its item could not be inserted, and no row otherwise |
| Answers.UserCancelAnswer | ticket-service/internal/service/queue_service.go:321-361 | Whom a cancellation is refused and why, that a refusal changes nothing, and that it otherwise cancels the order and takes it out of its queue |
| Answers.StatusRefusal | ticket-service/internal/service/queue_service.go:169-200 | A status query that is refused, or that is for a settled order, says so and changes nothing; one after its time says EXPIRED |
| Compensation.ChangedTypeIsSold | event-service/internal/service/event_service.go:367-390 | After a change of a ticket type, a request is granted exactly within its new sale dates, active, published and before the end of the event, as far as the new quota is not sold |
| Compensation.DeletedTypeStillSells | event-service/internal/service/event_service.go:395-419 | A deleted ticket type, whose counter stays, is sold if and only if the counter has the quantity, with no check of its sale |
| Compensation.AnsweredKey | ticket-service/internal/service/ticket_service.go:222-247 | A key that answers with an order makes a later request change nothing; it gets the recorded order only if the user has no open order for the event |
| Compensation.RepeatIsRefused | ticket-service/internal/service/ticket_service.go:222-229 | The same request sent again right away is refused by the pending-order guard, not served from the record |
| Orders.TicketsForCount | ticket-service/internal/service/ticket_service.go:400-425 | The tickets issued for an order are its item quantities, split per type, and nobody else's |
| Inventory.ScriptNeverOutrunsRow | ticket-service/internal/service/ticket_service.go:124-188 | Once the script accepts, the guarded increment behind it succeeds; a refusal leaves the row as it was; the counter goes on refining the row |
| Inventory.ReservedIff | ticket-service/internal/service/ticket_service.go:124-188 | A reservation is granted if and only if that much is on offer, on a present and on a missing counter alike, and then exactly that much less is |
| Inventory.FallbackNeverReserves | ticket-service/internal/service/ticket_service.go:167-169 | The fallback after a failed load never hands out tickets, because the handler refuses for the same reason |
| Inventory.ReserveMovesCounter | ticket-service/internal/service/ticket_service.go:124-188 | A reservation moves only its own counter, by its quantity and only when granted, and never removes one; a missing one is loaded from a row that is on sale, granted or not |
| Inventory.ReleaseUndoesReserve | ticket-service/internal/service/ticket_service.go:190-198 | From every stock, a release right after a granted reservation restores the counter, and restores the row unless the handler had refused to count the reservation |
| Inventory.ReleaseKeepsRefines | event-service/internal/repository/db/ticket_types.sql.go:63-67 | A release of what the row counts keeps the counter within the row |
| Inventory.PrewarmKeepsRefines | event-service/internal/service/event_service.go:150-169 | A pre-warm sets the counter of every active type to exactly what its row has left, and touches no row |
| Inventory.UpdateKeepsRefinesIff | event-service/internal/service/event_service.go:381-390 | A quota change keeps the counter within the row if and only if the quota is not set below `sold` |
| Inventory.ChangedType | event-service/internal/service/event_service.go:336-390 | After a quota change: the row has the new quota and dates, the counter is quota minus sold (never below 0) while the sale lasts and 0 once it has ended, and no other row or counter moves; an unknown type changes nothing |
| Inventory.NewType | event-service/internal/service/event_service.go:253-331 | After a creation: an active row of which nothing is sold, the whole quota on offer unless the sale has ended, and nothing else moves |
| Inventory.StoredTypeSells | event-service/internal/service/event_service.go:322-331 | So after either, during the sale, a reservation is granted if and only if that much of the quota is not sold |
| Inventory.WarmedTypes | event-service/internal/service/event_service.go:143-169 | A pre-warm, alone or after an update of a published event, offers what is not sold of exactly the active types of that event |
| Inventory.EventRows | event-service/internal/service/event_service.go:395-499 | Which rows an event update and the deletions change or take along, and that deletions leave every counter |
| Inventory.ReserveAnswer | ticket-service/internal/service/ticket_service.go:124-188 | The three answers of a reservation from every stock: the counter alone decides when it is there; when it is not, the row is refused outside its sale and otherwise decides |
| Inventory.ReservedRow | event-service/internal/handler/internal_ticket_handler.go:29-94 | The row counts a granted reservation if and only if it is active, on sale, published, before the end of its event and has that much left |
| Inventory.ReleasedStock | event-service/internal/repository/db/ticket_types.sql.go:63-67 | A release: the key, if there, and the row, if it counts that much, and nothing else |
| Witnesses.PollAtExpiry | ticket-service/internal/service/queue_service.go:295-313 | A concrete last-second query after which a CANCELLED order is queued again |
| Witnesses.TimeoutLosesNext | ticket-service/internal/service/queue_service.go:164-165 | A concrete room in which a timeout loses the next in line |
| Witnesses.PaymentOfWaitingLosesActive | ticket-service/internal/service/ticket_service.go:427-428 | A concrete room in which the payment of a waiting order loses the active one |
| Witnesses.PollSendsBack | ticket-service/internal/service/queue_service.go:310-318 | A concrete room in which the next in line polls and ends up behind the order after it |
| Witnesses.TurnForCancelled | ticket-service/internal/service/ticket_service.go:508-516 | A concrete request to pay that cancels its own order and is granted the turn |
| Witnesses.PollThenPurchaseOversells | ticket-service/internal/service/queue_service.go:76-81 | A concrete run from a sound room, a last-second poll and later an ordinary purchase, after which three tickets of a quota of two are on offer or held |
| Witnesses.SecondLookBreaksBooks | ticket-service/internal/service/ticket_service.go:439-460 | Concrete second cancellations and a late payment that break conservation |
| Witnesses.FailedInsertTakesFromOthers | ticket-service/internal/service/ticket_service.go:320-327 | A concrete room, lowered quota and failing INSERT after which the row no longer counts a ticket that is held |
| Witnesses.CancelAfterPayment | ticket-service/internal/service/ticket_service.go:484-487 | A concrete failed-payment notification that leaves tickets for stock on sale again |
| ReserveRace.WarmKeyConserves | ticket-service/internal/service/ticket_service.go:38-60 | Any number of callers, any interleaving, from a pre-warmed key: it stays, is never loaded over, never goes negative, and what was taken is what is missing |
| ReserveRace.WarmKeyNeverOversells | ticket-service/internal/service/ticket_service.go:116-198 | From a key warmed to the quota, reservations in hand never exceed it |
| ReserveRace.LoadsKeptIff | ticket-service/internal/service/ticket_service.go:138-188 | With the load path and any number of processes, each with its own single flight: the path stays sound (one load at a time, none once the key is there, room for what is out) across a call if and only if the call does not read the row for a load while the key is there or another process loads it |
| ReserveRace.EarlyReadsNeverOversell | ticket-service/internal/service/ticket_service.go:138-188 | From a missing key, every interleaving without such a late read stays within the quota |
| ReserveRace.ColdStartIsSound | ticket-service/internal/service/ticket_service.go:138-166 | Such a start: the key is missing, nobody loads, and the row counts what is out and on its way back |
| ReserveRace.LateReadOversells | ticket-service/internal/service/ticket_service.go:138-188 | One read of the row while the key is there is enough to oversell, from every state in which the key holds stock and the row counts no more than what is out |
| ReserveRace.SecondProcessOversells | ticket-service/internal/service/ticket_service.go:139-166 | So is a second process that reads the row while the first one loads the missing key |
| ReserveRace.ColdKeyOversells | ticket-service/internal/service/ticket_service.go:138-188 | Such an interleaving: two callers on a missing key both get the whole quota |
| ReserveRace.LedgerKeptIff | event-service/internal/repository/db/ticket_types.sql.go:129-133 | Key and row go on agreeing after a call if and only if it is not an increment that the row refuses |
| ReserveRace.RefusedIff | event-service/internal/repository/db/ticket_types.sql.go:129-133 | The row refuses exactly while more is on its way back to it than the key and other reservations on their way leave room for |
| ReserveRace.WriteKeptIff | event-service/internal/service/event_service.go:381-390 | With the organizer's writes of the key in between: a write that covers `sold` stays within the quota if and only if no more is on its way to the row than on its way back, and keeps key and row in agreement if and only if it is the same |
| ReserveRace.QuietWritesKeepLedger | event-service/internal/service/event_service.go:150-169 | Over every run of calls and writes that refuse nothing and find nothing half done, key and row agree and reservations stay within the quota |
| ReserveRace.WriteBetweenOversells | event-service/internal/service/event_service.go:381-390 | A concrete write between a script and its increment after which both callers have the whole quota |
| ReserveRace.IncrementNeverLacks | event-service/internal/repository/db/ticket_types.sql.go:129-133 | With no release half done, the increment behind an accepted script never lacks inventory |
| ReserveRace.HalfDoneReleaseHidesSale | ticket-service/internal/service/ticket_service.go:190-198 | A reservation between the two halves of a release is never counted as sold |
| ReserveRace.AloneIsAtomic | ticket-service/internal/service/ticket_service.go:124-188 | A call that nobody interrupts, split into its statements, is the atomic reservation of `Inventory`, on a present and on a missing key |
| ReserveRace.ReleaseAloneIsAtomic | ticket-service/internal/service/ticket_service.go:190-198 | So is a release |
| ReserveRace.JoinedShareLoad | ticket-service/internal/service/ticket_service.go:139-166 | Callers that join a load get its number with the one that ran it |
| ReserveRace.SecondTryIsLast | ticket-service/internal/service/ticket_service.go:171-188 | The second try takes what the key offers or gives up |
| Idempotency.AtMostOneOrder | ticket-service/internal/service/ticket_service.go:231-253 | Any number of concurrent calls with one key, in any interleaving within its lifetime: one owner at a time, one live order at most, and every call answered with an order is answered with that one |
| Idempotency.StepKeeps | ticket-service/internal/service/ticket_service.go:294-353 | Only the owner ever removes or replaces the key, and the protocol invariant is kept |
| Idempotency.RunKeeps | ticket-service/internal/service/ticket_service.go:231-353 | The protocol invariant over every run within the key's lifetime |
| Idempotency.ExpiryKeepsIff | ticket-service/internal/service/ticket_service.go:249-253 | The end of a key's lifetime keeps the protocol if and only if the key is not in use |
| Idempotency.ExpiryBreaksIt | ticket-service/internal/service/ticket_service.go:249 | If the key runs out while its owner works, a second order is created |
| Idempotency.AloneCreates | ticket-service/internal/service/ticket_service.go:231-365 | An undisturbed call with a free key creates one live order, records it and answers with it |
| Idempotency.AloneRefused | ticket-service/internal/service/ticket_service.go:255-306 | If it is refused, key and orders are as before |
| Idempotency.AloneFails | ticket-service/internal/service/ticket_service.go:320-348 | If its item cannot be inserted, the key is free and its order cancelled |
| Idempotency.LateCallEnds | ticket-service/internal/service/ticket_service.go:231-253 | A call that meets a used key is given the recorded order or told to wait |
| Gate.AdmittedAtMostOnce | gate-service/internal/service/gate_service.go:58-153 | Over every interleaving of scans, syncs and lost, repeated or reordered messages: a ticket is admitted at most once, and has been exactly when its row is CHECKED_IN; a gate that names its event admits only that event's tickets; central USED implies local CHECKED_IN |
| Gate.CheckInIsFinal | gate-service/internal/repository/db/gate.sql.go:76-81 | From any reachable point on, a check-in is never undone |
| Gate.StepKeeps | gate-service/internal/service/gate_service.go:41-153 | Every statement of every caller keeps the protocol invariant, loses no row and undoes no check-in |
| Gate.SyncedRows | gate-service/internal/service/gate_service.go:41-56 | A sync with a true copy, replayed or late, checks nobody in and undoes no check-in |
| Gate.ScannedKeeps | ticket-service/internal/consumer/event_consumer.go:21-42 | A `ticket.scanned` message, whenever and however often it arrives, marks the scanned ticket and keeps the invariant |
| Gate.AdmitKeeps | gate-service/internal/service/gate_service.go:133-139 | The guarded UPDATE that succeeds admits a ticket that was not in, and counts it once |
| Gate.SyncedIff | gate-service/internal/service/gate_service.go:41-56 | A copy whose id and code are unused brings exactly one more row, with its event and code, USED if and only if the copy is; a used id or code brings none, and the open row of that id takes the status |
| Gate.FoundIff | gate-service/internal/service/gate_service.go:108-120 | An input finds the row of that code, or the row of that id if no row has that code |
| Gate.ScanAloneIff | gate-service/internal/service/gate_service.go:58-153 | A scan that nobody interrupts, with ticket-service reached, lets the named ticket in if and only if the gate allows its event and nobody is in with it; the row, the log and the message say so, and nothing else changes |
| Gate.StrangerStaysOut | gate-service/internal/service/gate_service.go:108-120 | An input that names no issued ticket changes nothing |
| Gate.IssueIff | ticket-service/internal/service/ticket_service.go:400-425 | A ticket is issued and announced exactly if its id and code are unused |
| Gate.AnnouncedArrives | gate-service/internal/consumer/ticket_consumer.go:20-45 | An announcement that a consumer takes alone brings the row of its ticket, and an old one changes no row |
| Gate.ScannedMarks | ticket-service/internal/consumer/event_consumer.go:21-42 | The message of a check-in makes exactly that ticket USED centrally |
| Withdrawals.NeverOverdrawn | ticket-service/internal/service/withdrawal_service.go:119-216 | Rounding does not accumulate: over any run with non-decreasing revenue in which nothing leaves REJECTED unless the balance covers it, PENDING, APPROVED and PAID withdrawals never exceed net revenue by more than half a cent |
| Withdrawals.NeverOverdrawnFromStart | ticket-service/internal/service/withdrawal_service.go:119-216 | In particular from the start of the platform |
| Withdrawals.RequestKeeps | ticket-service/internal/service/withdrawal_service.go:156-180 | A granted request exceeds the balance by its own rounding at most, whatever earlier roundings left |
| Withdrawals.GrantedIff | ticket-service/internal/service/withdrawal_service.go:125-180 | A request is granted if and only if it reaches the minimum and stays, with all live withdrawals, within net revenue; it then adds its stored amount for this organizer and nobody else |
| Withdrawals.DecisionCoveredIff | ticket-service/internal/repository/db/withdrawals.sql.go:294-302 | A decision keeps an organizer's bound if and only if it revives none of that organizer's withdrawals, or one that the balance before the decision covers up to the half cent |
| Withdrawals.DecisionRaisesIff | ticket-service/internal/repository/db/withdrawals.sql.go:294-302 | A decision raises the organizer's deductions if and only if it takes a withdrawal out of REJECTED |
| Withdrawals.StepSound | ticket-service/internal/service/withdrawal_service.go:119-306 | A step keeps every organizer's bound if and only if it revives no withdrawal that the balance before it does not cover |
| Withdrawals.MoreGrossMoreNet | ticket-service/internal/service/ticket_service.go:105-110 | Net revenue grows with gross revenue for every fee, or is nothing |
| Withdrawals.NetOf | ticket-service/internal/service/ticket_service.go:105-110 | Net revenue is what a fee of 5 percent, or the configured one if positive, leaves of the gross |
| Withdrawals.RequestAnswer | ticket-service/internal/service/withdrawal_service.go:119-190 | The three answers to a request, with the minimum of 10000, and the PENDING withdrawal a granted one adds |
| Withdrawals.DecisionStores | ticket-service/internal/repository/db/withdrawals.sql.go:294-302 | A decision stores exactly its status in exactly that withdrawal |
| Withdrawals.NearestCent | ticket-service/internal/service/withdrawal_service.go:57-61 | Amounts with two decimals are stored as they are, others as the nearest cent, and of two the even one |
| Withdrawals.GrossAfter | ticket-service/internal/service/withdrawal_service.go:125-154 | Gross revenue is what has come in, untouched by requests and decisions |
| Withdrawals.Cents | ticket-service/internal/service/withdrawal_service.go:57-61 | The stored amount is within half a cent of the requested one |
| Withdrawals.HalfCentIsTight | ticket-service/internal/service/withdrawal_service.go:57-61 | A concrete request that reaches the half cent |
| Withdrawals.RevivalOverdraws | ticket-service/internal/service/withdrawal_service.go:285-306 | A concrete revival after which twice the net revenue is due |
| EventCache.CacheInvisible | event-service/internal/service/event_service.go:83-251 | Over any run whose updates and deletes spell ids canonically, and however entries lapse, every read by canonical id and every list is answered as without a cache |
| EventCache.StepCoherent | event-service/internal/service/event_service.go:129-141 | One operation keeps the cache coherent and does to the table what the uncached service does |
| EventCache.FreshKeptIff | event-service/internal/service/event_service.go:421-499 | With ids and slugs unique and the cache right under every name before, it is right under every name after any operation if and only if the operation altered no event that was cached under a name other than the one it was made with: another spelling of its id, or its slug |
| EventCache.CacheInvisibleUnderEveryName | event-service/internal/service/event_service.go:83-251 | Over any run of such operations, whatever names are used, every single answer, reads by slug included, is the one given without the cache |
| EventCache.HeldElsewhereIsStale | event-service/internal/service/event_service.go:129-141 | From any other such state, an update or delete makes the very next read by that other name wrong |
| EventCache.PlainKeepsUnique | event-service/internal/service/event_service.go:83-127 | Every operation keeps ids and slugs unique |
| EventCache.RenamedStillRead | event-service/internal/service/event_service.go:445-471 | A concrete event, read by its slug, updated, and still read as it was by the old slug |
| EventCache.DeletedStillRead | event-service/internal/service/event_service.go:480-499 | A concrete event, read by its slug, deleted, and still read by its slug |
| EventCache.ReadAfter | event-service/internal/service/event_service.go:421-499 | What a read by id gives after any operation, in terms of what it gave before |
| EventCache.PublishedSorted | event-service/internal/service/event_service.go:229-235 | The list query: every published event as often as it is there, no other, by ascending start date |
| EventCache.PagesInOrder | event-service/internal/service/event_service.go:229-245 | The pages one after another are that list from its start, each full up to the last, and each says how many there are |
| EventCache.CreatedOnce | event-service/internal/service/event_service.go:105-126 | An event is created exactly if no row has its id or slug |
| EventCache.OwnUpdatesOnly | event-service/internal/service/event_service.go:421-471 | An organizer changes its own events only: an update keeps id and organizer, sets the other columns, is refused for a slug that is taken, and tells anybody else that there is no such event |
| EventCache.OwnDeletesOnly | event-service/internal/service/event_service.go:480-499 | An organizer deletes its own events only, and is told the same either way |
| EventCache.UnknownIsNotFound | event-service/internal/service/event_service.go:421-499 | What an update or delete of no event answers |
| EventCache.ReadIsCached | event-service/internal/service/event_service.go:172-251 | A read that finds its event, and a list, is answered from the cache from then on, without a look at the table |
| EventCache.ChangeEmptiesPages | event-service/internal/service/event_service.go:129-141 | A change that is done empties the pages and drops its own name; one that is not leaves the cache alone |
| EventCache.LapseDropsOne | event-service/internal/service/event_service.go:196-205 | What lapses is gone from the cache, and nothing else is |
| PaymentId.NotificationFindsOrder | ticket-service/internal/service/ticket_service.go:554-567 | For every UUID and timestamp, a notification for an id this service sent is traced to its order |
| PaymentId.OldNotificationFindsOrder | ticket-service/internal/service/ticket_service.go:554-567 | So is one in the older form |
| PaymentId.GatewayIdsDistinct | ticket-service/internal/service/ticket_service.go:524-527 | Two orders never share a gateway id, whichever forms and times are used |
| PaymentId.FitsIff | ticket-service/internal/service/ticket_service.go:524-527 | The id has at most 50 characters if and only if the timestamp has at most 13 digits |
| PaymentId.CompactIsHex | ticket-service/internal/service/ticket_service.go:526 | Removing the dashes leaves the 32 digits in order |
| PaymentId.GatewayIdLiteral | ticket-service/internal/service/ticket_service.go:524-527 | The id in its literal form: ORD_, the 32 digits, an underscore and the time |
| PaymentId.GatewayIdSameIff | ticket-service/internal/service/ticket_service.go:524-527 | Two attempts share an id if and only if they are for one order and in one second |
| PaymentId.ParseIff | ticket-service/internal/service/ticket_service.go:554-567 | Exactly which texts name a UUID: canonical, URN, enclosed, or digits alone, in either case |
| TicketServices.TicketService.AdvanceQueue | ticket-service/internal/service/queue_service.go:101-139 | The pop loop ends and performs the advance; it returns the promoted order, which was PENDING |
| TicketServices.PopStep | ticket-service/internal/service/queue_service.go:112-127 | One turn of the loop: a dead entry makes no difference, a PENDING one is what the advance promotes |
| TicketServices.TicketService.EnqueueOrder | ticket-service/internal/service/queue_service.go:31-99 | The recursive method performs the enqueue; ACTIVE means the slot, WAITING the last place at the position it reports |
| TicketServices.TicketService.FindWaiting | ticket-service/internal/service/queue_service.go:276-283 | The search loop finds the first position of the order, or reports that it is not waiting |
| TicketServices.TicketService.ReleaseItems | ticket-service/internal/service/ticket_service.go:457-460 | The loop releases every item once |
| TicketServices.TicketService.GenerateTickets | ticket-service/internal/service/ticket_service.go:400-425 | The nested loops append exactly the tickets of the items |
| TicketServices.TicketService.ProcessExpiredOrders | ticket-service/internal/worker/expiry_worker.go:35-50 | The loop over the snapshot performs the sweep |
| TicketServices.TicketService.CancelOrder | ticket-service/internal/service/ticket_service.go:433-482 | The method, with its loop and its advance, performs the cancellation; it fails exactly for a missing order |
| StockKeeping.StockKeeper.PrewarmTicketStock | event-service/internal/service/event_service.go:150-169 | The loop, in any row order, writes exactly the counters of the event's active types |
| StockKeeping.StockKeeper.ReserveTicketStock | ticket-service/internal/service/ticket_service.go:116-188 | Script, load and second try together are the reservation that the lemmas above are about |
| Gate.GateService.Lookup | gate-service/internal/service/gate_service.go:108-120 | The row is looked up by code first, then by id |
| Withdrawals.WithdrawalService.WithdrawnSummary | ticket-service/internal/repository/db/withdrawals.sql.go:132-140 | One pass over the rows computes the deductions |
| EventCache.EventService.InvalidateEventCache | event-service/internal/service/event_service.go:129-141 | The scan loop leaves no page, and removes the key of the name as it was spelled |
| StockKeeping.StockKeeper.ReserveScript | ticket-service/internal/service/ticket_service.go:38-50 | The script as it updates the counter: its three answers and the one that takes stock |
| StockKeeping.StockKeeper.ReleaseScript | ticket-service/internal/service/ticket_service.go:52-60 | The script adds to a present counter only |
| StockKeeping.StockKeeper.ReserveTickets | event-service/internal/handler/internal_ticket_handler.go:29-94 | The handler with its checks and the guarded increment |
| StockKeeping.StockKeeper.ReleaseTickets | event-service/internal/handler/internal_ticket_handler.go:96-124 | The handler with the guarded decrement |
| StockKeeping.StockKeeper.LoadStock | ticket-service/internal/service/ticket_service.go:139-166 | What a missing counter is loaded with, and when it is not loaded |
| StockKeeping.StockKeeper.ReleaseTicketStock | ticket-service/internal/service/ticket_service.go:190-198 | Both counters together are the release that the lemmas above are about |
| StockKeeping.StockKeeper.UpdateTicketType | event-service/internal/service/event_service.go:367-390 | Row and counter after a quota change, and after the sale has ended, as `ChangedType` spells them out |
| StockKeeping.StockKeeper.CreateTicketType | event-service/internal/service/event_service.go:308-331 | Row and counter of a new ticket type, as `NewType` spells them out |
| StockKeeping.StockKeeper.DeleteTicketType | event-service/internal/service/event_service.go:413-418 | The row goes, the counter stays |
| TicketServices.TicketService.CheckAndAdvanceExpiredActive | ticket-service/internal/service/queue_service.go:141-167 | The method performs the timeout step that the room theorems are about |
| TicketServices.TicketService.GetOrderQueueStatus | ticket-service/internal/service/queue_service.go:169-319 | State and answer of the query, in all its branches; `StatusTrueIff`, `StatusRefusal` and `TimeAfter` say what they are |
| TicketServices.TicketService.PlaceOrder | ticket-service/internal/service/queue_service.go:253-318 | State and answer of the second half of the query: slot, list (which writes nothing, by `TimeAfter`), promotion or re-enqueue |
| TicketServices.TicketService.CancelOrderInQueue | ticket-service/internal/service/queue_service.go:321-361 | State and error of a cancellation by the user |
| TicketServices.TicketService.HandlePaymentSuccess | ticket-service/internal/service/ticket_service.go:370-431 | The method performs the payment; a missing order is reported |
| TicketServices.TicketService.CheckTicketType | ticket-service/internal/service/ticket_service.go:255-291 | The checks in their order: the first objection is the one returned |
| TicketServices.TicketService.CreateOrder | ticket-service/internal/service/ticket_service.go:208-253 | Guard, key and creation together perform the step the theorems are about, with the answer that `CreateAnswer` spells out |
| TicketServices.TicketService.CreateOwnedOrder | ticket-service/internal/service/ticket_service.go:255-368 | Checks, reservation, INSERTs with their compensation, record and enqueue |
| TicketServices.TicketService.TakePaymentTurn | ticket-service/internal/service/ticket_service.go:489-516 | The turn check, which may move the queue, and its answer, which `TurnOnlyForOwner`, `TurnIsActive` and `TurnAfterTimeOut` spell out |
| Gate.GateService.SyncTicket | gate-service/internal/service/gate_service.go:41-56 | Insert, and on a used id or code the guarded update: one more row with event, code and status of the copy, or the same rows with that status in an open one |
| Gate.GateService.ScanTicket | gate-service/internal/service/gate_service.go:58-153 | When a scan is accepted, what it changes and publishes, and which refusal it gets otherwise; a valid ticket of the event of this gate that is seen for the first time is let in; `reply` stands for what ticket-service answered |
| Withdrawals.WithdrawalService.RequestWithdrawal | ticket-service/internal/service/withdrawal_service.go:119-190 | State and error of a request |
| Withdrawals.WithdrawalService.AdminUpdateWithdrawalStatus | ticket-service/internal/service/withdrawal_service.go:285-306 | State and error of a decision |
| EventCache.EventService.GetEvent | event-service/internal/service/event_service.go:172-210 | Answer and cache after a read |
| EventCache.EventService.ListEvents | event-service/internal/service/event_service.go:212-251 | Answer and cache after a list |
| EventCache.EventService.CreateEvent | event-service/internal/service/event_service.go:105-126 | Table, cache and answer after a creation |
| EventCache.EventService.UpdateEvent | event-service/internal/service/event_service.go:421-471 | Table, cache and answer after an update, a missing row and a slug that is taken included |
| EventCache.EventService.DeleteEvent | event-service/internal/service/event_service.go:480-499 | Table, cache and answer after a deletion |

## Left out

- Running without Redis, or with Redis calls that fail while the key is there: the two counters then diverge by design.
- Lifetimes of Redis keys other than the idempotency key and the event cache: the 24 hours of a slot are not modelled.
- Order ids spelled differently from their canonical text: the code compares the caller's spelling with the slot.
- Tickets whose INSERT fails during a payment, and the publishing of `order.created`, `order.cancelled` and `ticket.created` by ticket-service.
- TicketServices.TicketService.GetOrderQueueStatus: the item and price columns of the answer are not modelled.
- TicketServices.TicketService.CreateOrder: parsing of ids, amounts and prices is not modelled.
- TicketServices.TicketService.TakePaymentTurn: the call to the payment gateway that follows is not part of this model.
- TicketServices.TicketService.ProcessExpiredOrders: the rows of the query are a parameter, in any order.
- StockKeeping.StockKeeper.UpdateTicketType: the check that the event belongs to the organizer and the columns without effect on stock are not modelled.
- StockKeeping.StockKeeper.CreateTicketType: the check that the event belongs to the organizer is not modelled, nor in StockKeeping.StockKeeper.DeleteTicketType.
- `HandleMidtransNotification` beyond tracing the order: the gateway's status picks between a payment, a cancellation and nothing, and the machine's steps may come in any order.
- ReserveRace.WriteKeptIff: the row update and the key write of event-service are one step.
- ReserveRace.WarmKeyConserves: one ticket type, and a load either stores its number or has not ended; a load that fails is not modelled.
- Gate.GateService.ScanTicket: the HTTP call is the parameter `reply`, and default values for empty fields of the reply and gate names that are no UUID are not modelled.
- Gate.AdmittedAtMostOnce: tickets are ACTIVE or USED centrally; no code sets another status.
- Withdrawals.NeverOverdrawn: requests are sequential, because the transaction reads without locking; binary rounding of floating-point numbers is not modelled.
- EventCache.CacheInvisible: an operation is atomic; venue, category and text columns are one value.
- EventCache.EventService.UpdateEvent: the pre-warm of a published event is a step of the machine instead, and the parsing of dates is not modelled.
- EventCache.EventService.ListEvents: rows with the same start date are ordered by table position, which the query leaves open.
- auth-service, payment-service, storage-service, venues, categories, search, dashboards, gate statistics and HTTP handlers other than the stock ones: no state with a hard invariant.
