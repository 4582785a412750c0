/**
 The PostgreSQL tables behind the saga and what each committed transaction does to
 them. Every function here is one atomic unit of the source: a single conditional
 UPDATE, or a whole `dataSource.transaction(...)` block.
 */
module Tables {
  import opened Common
  import opened OrderStateMachine
  import opened Stock

  datatype Order = Order(user: UserId, status: OrderStatus, paymentInitiated: bool, lines: seq<Line>)

  datatype EventKind = Created | InventoryReserved | PaymentProcessed | Completed | Failed

  datatype Consumer = Inventory | Payment | Completion | Email

  /** Which durable work queue a routing key is bound to. */
  function ConsumerOf(kind: EventKind): Consumer {
    match kind
    case Created => Inventory
    case InventoryReserved => Payment
    case PaymentProcessed => Completion
    case Completed => Email
    case Failed => Email
  }

  /** An outbox row; its position in the table is its id and its AMQP messageId.
      `items` is the payload of OrderCreated and empty otherwise. */
  datatype Event = Event(kind: EventKind, order: OrderId, items: seq<Line>)

  /** What the payment provider decides. */
  datatype PaymentResult = Authorized | Declined(reason: Option<string>)

  /** A `payment_authorizations` row: `authorized` is None while the charge is undecided. */
  datatype Authorization = Authorization(authorized: Option<bool>, declineReason: Option<string>, createdAt: nat)

  /** toResult, for a row that holds a decision. */
  function Decision(row: Authorization): Option<PaymentResult> {
    match row.authorized
    case None => None
    case Some(yes) => Some(if yes then Authorized else Declined(row.declineReason))
  }

  /** The columns `authorize` writes for a decision. */
  function Decided(row: Authorization, result: PaymentResult): Authorization {
    match result
    case Authorized => row.(authorized := Some(true), declineReason := None)
    case Declined(reason) => row.(authorized := Some(false), declineReason := reason)
  }

  type InboxKey = (MessageId, Consumer)

  datatype Db = Db(
    orders: seq<Order>,
    stock: Shelf,
    outbox: seq<Event>,
    published: set<MessageId>,
    inbox: set<InboxKey>,
    ledger: map<OrderId, Authorization>)

  datatype Error = NotFound | Conflict | PaymentInFlight

  datatype Result<+T> = Ok(value: T) | Err(error: Error)

  function InboxKeyOf(db: Db, m: MessageId): InboxKey
    requires m < |db.outbox|
  {
    (m, ConsumerOf(db.outbox[m].kind))
  }

  predicate Processed(db: Db, m: MessageId)
    requires m < |db.outbox|
  {
    InboxKeyOf(db, m) in db.inbox
  }

  /** OutboxService.enqueue: a fresh row through the caller's transaction. */
  function Enqueue(db: Db, kind: EventKind, order: OrderId, items: seq<Line>): Db {
    db.(outbox := db.outbox + [Event(kind, order, items)])
  }

  function SetStatus(db: Db, o: OrderId, to: OrderStatus): Db
    requires o < |db.orders|
  {
    db.(orders := db.orders[o := db.orders[o].(status := to)])
  }

  /** OrdersService.createOrder's transaction: order, items and outbox row together. */
  function CreateOrder(db: Db, user: UserId, lines: seq<Line>): Db {
    Enqueue(db.(orders := db.orders + [Order(user, PENDING, false, lines)]), Created, |db.orders|, lines)
  }

  /** OrdersService.transitionOrder: validate against the state machine, then compare-and-set. */
  function TransitionOrder(db: Db, o: OrderId, to: OrderStatus): Result<Db> {
    if o >= |db.orders| then Err(NotFound)
    else if !IsTransitionAllowed(db.orders[o].status, to) then Err(Conflict)
    else Ok(SetStatus(db, o, to))
  }

  /** The WHERE clause of initiatePayment's claim. */
  predicate AwaitingPayment(order: Order) {
    order.status == RESERVED && !order.paymentInitiated
  }

  /** initiatePayment: owner-scoped lookup, then claim and outbox row in one transaction. */
  function InitiatePayment(db: Db, o: OrderId, user: UserId): Result<Db> {
    if o >= |db.orders| || db.orders[o].user != user then Err(NotFound)
    else if !AwaitingPayment(db.orders[o]) then Err(Conflict)
    else Ok(Enqueue(db.(orders := db.orders[o := db.orders[o].(paymentInitiated := true)]),
                    InventoryReserved, o, []))
  }

  /** Both cancelOrder's pre-check and the WHERE clause of its claim. */
  predicate Cancellable(order: Order) {
    order.status == PENDING || AwaitingPayment(order)
  }

  /** The claim UPDATE of cancelOrder; Err(Conflict) is `affected === 0`. */
  function ClaimCancel(db: Db, o: OrderId): Result<Db> {
    if o < |db.orders| && Cancellable(db.orders[o]) then Ok(SetStatus(db, o, CANCELLED))
    else Err(Conflict)
  }

  /** One UPDATE of restoreStock. */
  function RestoreLine(db: Db, l: Line): Db {
    if l.product in db.stock then db.(stock := db.stock[l.product := db.stock[l.product] + l.quantity])
    else db
  }

  /** The inventory consumer's work, given whether reserveStock found a short product. */
  function InventoryWork(db: Db, e: Event, short: bool): Result<Db> {
    if short then
      match TransitionOrder(db, e.order, FAILED)
      case Err(err) => Err(err)
      case Ok(failed) => Ok(Enqueue(failed, Failed, e.order, []))
    else
      TransitionOrder(db.(stock := Stock.Reserved(db.stock, e.items)), e.order, RESERVED)
  }

  /** The payment consumer's work for the result `authorize` returned. */
  function PaymentWork(db: Db, e: Event, result: PaymentResult): Result<Db> {
    match TransitionOrder(db, e.order, if result.Authorized? then PAID else FAILED)
    case Err(err) => Err(err)
    case Ok(moved) => Ok(Enqueue(moved, if result.Authorized? then PaymentProcessed else Failed, e.order, []))
  }

  function CompletionWork(db: Db, e: Event): Result<Db> {
    match TransitionOrder(db, e.order, COMPLETED)
    case Err(err) => Err(err)
    case Ok(moved) => Ok(Enqueue(moved, Completed, e.order, []))
  }

  /** How a runOnce transaction whose inbox check found nothing can end. */
  datatype TxOutcome = Committed(db: Db) | Duplicate | Threw(error: Error)

  /** The tail of runOnce: work first, inbox insert last. A taken key rolls everything
      back and counts as already processed; an error from the work rolls back and is rethrown. */
  function FinishRunOnce(key: InboxKey, work: Result<Db>): TxOutcome {
    match work
    case Err(e) => Threw(e)
    case Ok(db) => if key in db.inbox then Duplicate else Committed(db.(inbox := db.inbox + {key}))
  }
}
