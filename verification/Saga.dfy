/**
 The order-fulfilment saga as one transition system: the tables, the broker, the
 payment provider and every request, delivery and drain that is in flight. Each step
 is one atomic unit of the source, so any two of them may interleave.
 */
module Saga {
  import opened Common
  import opened OrderStateMachine
  import opened Stock
  import opened Tables
  import Retry

  /** A copy of a message held by the broker; `attempts` is its x-attempts header. */
  datatype Copy = Copy(message: MessageId, attempts: nat)

  /** Work queues, wait queues and the dead-letter queue. The queue a copy sits in
      follows from its routing key, so one bag per kind of queue is enough. */
  datatype Broker = Broker(work: multiset<Copy>, wait: multiset<Copy>, dlq: multiset<Copy>)

  /** Where a consumer stands with an unacknowledged delivery. */
  datatype Pc =
    | Start
    | InboxFree                       // runOnce read the inbox and found no record
    | StockJudged(short: bool)        // inventory: reserveStock has run
    | ClaimLost                       // payment: the ledger row was already there
    | Undecided                       // payment: ... and held no decision when read
    | Charging                        // payment: owns the charge or took it over
    | Charged(result: PaymentResult)  // payment: the provider answered
    | Answered(result: PaymentResult) // payment: authorize returned
    | AnsweredFree(result: PaymentResult) // payment: ... and the inbox had no record
    | Handled                         // processed or skipped; to be acked
    | Failing                         // the handler threw
    | Resent                          // retry copy sent, original not acked yet

  datatype Handler = Handler(message: MessageId, attempts: nat, pc: Pc)

  datatype Cancel =
    | CancelReading(order: OrderId, wasReserved: bool, lines: seq<Line>)
    | CancelRestoring(order: OrderId, remaining: seq<Line>)

  /** Why a cancelled order may keep stock for good. */
  datatype Loss = RestoreCrashed | ReadPendingClaimedReserved

  /** History, written by the steps and read by none of them. `held` is what the order's
      committed reservation took and nobody has given back. */
  datatype Audit = Audit(
    held: seq<Line>,
    loss: Option<Loss>,
    providerCalls: nat,
    takeovers: nat,
    answers: set<PaymentResult>)

  datatype State = State(
    db: Db,
    broker: Broker,
    drains: map<nat, set<MessageId>>, // open relay transactions and what each has published
    handlers: map<nat, Handler>,
    cancels: map<nat, Cancel>,
    provider: map<OrderId, PaymentResult>,
    now: nat,                         // the database clock, in seconds
    audit: seq<Audit>,                // history, one entry per order
    supplied: Shelf,                  // history: initial stock plus every replenishment
    applied: multiset<InboxKey>)      // history: work committed, per inbox key

  const MAX_RETRIES: nat := Retry.DEFAULT_MAX_RETRIES

  datatype RequestStep =
    | CreateStep(user: UserId, lines: seq<Line>)
    | PayStep(order: OrderId, user: UserId)
    | CancelReadStep(req: nat, order: OrderId, user: UserId)
    | CancelClaimStep(req: nat)
    | CancelRestoreStep(req: nat)
    | CancelCrashStep(req: nat)
    | ReplenishStep(product: ProductId, amount: nat)
    | TickStep

  datatype RelayStep =
    | PublishStep(drain: nat, message: MessageId)
    | DrainCommitStep(drain: nat)
    | DrainCrashStep(drain: nat)

  datatype DeliveryStep =
    | DeliverStep(h: nat, copy: Copy)
    | CrashStep(h: nat)
    | CheckInboxStep(h: nat)
    | JudgeStockStep(h: nat)
    | CommitStep(h: nat)
    | ThrowStep(h: nat)
    | RetryStep(h: nat)
    | AckStep(h: nat)
    | ExpireStep(copy: Copy)

  datatype GatewayStep =
    | ClaimLedgerStep(h: nat)
    | ReadLedgerStep(h: nat)
    | JudgeStaleStep(h: nat)
    | ChargeStep(h: nat, result: PaymentResult)
    | ChargeFailsStep(h: nat)
    | RecordStep(h: nat)

  datatype Step =
    | Request(request: RequestStep)
    | Relay(relay: RelayStep)
    | Delivery(delivery: DeliveryStep)
    | Gateway(gateway: GatewayStep)

  // ---------- small updates ----------

  function EventOf(s: State, h: nat): Event
    requires h in s.handlers && s.handlers[h].message < |s.db.outbox|
  {
    s.db.outbox[s.handlers[h].message]
  }

  function Goto(s: State, h: nat, pc: Pc): State
    requires h in s.handlers
  {
    s.(handlers := s.handlers[h := s.handlers[h].(pc := pc)])
  }

  function WithAudit(s: State, o: OrderId, a: Audit): State
    requires o < |s.audit|
  {
    s.(audit := s.audit[o := a])
  }

  predicate IsStale(row: Authorization, now: nat) {
    row.authorized.None? && row.createdAt + Retry.STALE_CLAIM_SECONDS < now
  }

  // ---------- requests ----------

  function DoCreate(s: State, user: UserId, lines: seq<Line>): State {
    s.(db := CreateOrder(s.db, user, lines), audit := s.audit + [Audit([], None, 0, 0, {})])
  }

  function DoPay(s: State, o: OrderId, user: UserId): State {
    match InitiatePayment(s.db, o, user)
    case Err(_) => s
    case Ok(db) => s.(db := db)
  }

  /** cancelOrder up to `wasReserved`; an order that cannot be cancelled ends the request. */
  function DoCancelRead(s: State, req: nat, o: OrderId, user: UserId): State {
    if o < |s.db.orders| && s.db.orders[o].user == user && Cancellable(s.db.orders[o]) then
      s.(cancels := s.cancels[req := CancelReading(o, s.db.orders[o].status == RESERVED, s.db.orders[o].lines)])
    else s
  }

  predicate CanCancelClaim(s: State, req: nat) {
    req in s.cancels && s.cancels[req].CancelReading? && s.cancels[req].order < |s.db.orders| == |s.audit|
  }

  /** The claim. Only a request that read RESERVED goes on to restore stock. */
  function DoCancelClaim(s: State, req: nat): State
    requires CanCancelClaim(s, req)
  {
    var CancelReading(o, wasReserved, lines) := s.cancels[req];
    var ended := s.(cancels := Without(s.cancels, req));
    match ClaimCancel(s.db, o)
    case Err(_) => ended
    case Ok(db) =>
      if wasReserved && lines != [] then
        s.(db := db, cancels := s.cancels[req := CancelRestoring(o, lines)])
      else if !wasReserved && s.db.orders[o].status == RESERVED then
        WithAudit(ended.(db := db), o, s.audit[o].(loss := Some(ReadPendingClaimedReserved)))
      else
        ended.(db := db)
  }

  predicate CanCancelRestore(s: State, req: nat) {
    req in s.cancels && s.cancels[req].CancelRestoring? && s.cancels[req].remaining != [] &&
    s.cancels[req].order < |s.audit|
  }

  /** One line of restoreStock, which runs outside any transaction. */
  function DoCancelRestore(s: State, req: nat): State
    requires CanCancelRestore(s, req)
  {
    var CancelRestoring(o, remaining) := s.cancels[req];
    var rest := remaining[1..];
    WithAudit(
      s.(db := RestoreLine(s.db, remaining[0]),
         cancels := if rest == [] then Without(s.cancels, req) else s.cancels[req := CancelRestoring(o, rest)]),
      o, s.audit[o].(held := if s.audit[o].held == [] then [] else s.audit[o].held[1..]))
  }

  predicate CanCancelCrash(s: State, req: nat) {
    req in s.cancels && s.cancels[req].order < |s.audit|
  }

  function DoCancelCrash(s: State, req: nat): State
    requires CanCancelCrash(s, req)
  {
    var ended := s.(cancels := Without(s.cancels, req));
    if s.cancels[req].CancelRestoring? then
      WithAudit(ended, s.cancels[req].order, s.audit[s.cancels[req].order].(loss := Some(RestoreCrashed)))
    else ended
  }

  function DoReplenish(s: State, p: ProductId, amount: nat): State
    requires p in s.db.stock && p in s.supplied
  {
    s.(db := s.db.(stock := s.db.stock[p := s.db.stock[p] + amount]),
       supplied := s.supplied[p := s.supplied[p] + amount])
  }

  // ---------- relay ----------

  /** One publish inside a drain's transaction; the row lock keeps other drains off it. */
  predicate CanPublish(s: State, m: MessageId) {
    m < |s.db.outbox| && m !in s.db.published && forall i | i in s.drains :: m !in s.drains[i]
  }

  function DoPublish(s: State, d: nat, m: MessageId): State {
    s.(broker := s.broker.(work := s.broker.work + multiset{Copy(m, 0)}),
       drains := s.drains[d := (if d in s.drains then s.drains[d] else {}) + {m}])
  }

  function DoDrainCommit(s: State, d: nat): State
    requires d in s.drains
  {
    s.(db := s.db.(published := s.db.published + s.drains[d]), drains := Without(s.drains, d))
  }

  // ---------- deliveries ----------

  function DoDeliver(s: State, h: nat, c: Copy): State {
    s.(broker := s.broker.(work := s.broker.work - multiset{c}),
       handlers := s.handlers[h := Handler(c.message, c.attempts, Start)])
  }

  /** The consumer dies; the broker requeues the unacknowledged copy. */
  function DoCrash(s: State, h: nat): State
    requires h in s.handlers
  {
    s.(broker := s.broker.(work := s.broker.work + multiset{Copy(s.handlers[h].message, s.handlers[h].attempts)}),
       handlers := Without(s.handlers, h))
  }

  predicate CanCheckInbox(s: State, h: nat) {
    h in s.handlers && s.handlers[h].message < |s.db.outbox| &&
    (s.handlers[h].pc.Answered? || (s.handlers[h].pc.Start? && !EventOf(s, h).kind.InventoryReserved?))
  }

  function DoCheckInbox(s: State, h: nat): State
    requires CanCheckInbox(s, h)
  {
    Goto(s, h,
         if Processed(s.db, s.handlers[h].message) then Handled
         else if s.handlers[h].pc.Answered? then AnsweredFree(s.handlers[h].pc.result)
         else InboxFree)
  }

  predicate CanJudgeStock(s: State, h: nat) {
    h in s.handlers && s.handlers[h].message < |s.db.outbox| &&
    s.handlers[h].pc.InboxFree? && EventOf(s, h).kind.Created?
  }

  /** reserveStock decides. A success keeps its rows locked, hence the guard in CanCommit. */
  function DoJudgeStock(s: State, h: nat): State
    requires CanJudgeStock(s, h)
  {
    Goto(s, h, StockJudged(!CanReserve(s.db.stock, EventOf(s, h).items)))
  }

  predicate CanCommit(s: State, h: nat) {
    h in s.handlers && s.handlers[h].message < |s.db.outbox| && |s.audit| == |s.db.orders| &&
    match EventOf(s, h).kind
    case Created =>
      s.handlers[h].pc.StockJudged? && (s.handlers[h].pc.short || CanReserve(s.db.stock, EventOf(s, h).items))
    case InventoryReserved => s.handlers[h].pc.AnsweredFree?
    case _ => s.handlers[h].pc.InboxFree?
  }

  function Work(s: State, h: nat): Result<Db>
    requires CanCommit(s, h)
  {
    var e := EventOf(s, h);
    match e.kind
    case Created => InventoryWork(s.db, e, s.handlers[h].pc.short)
    case InventoryReserved => PaymentWork(s.db, e, s.handlers[h].pc.result)
    case PaymentProcessed => CompletionWork(s.db, e)
    case _ => Ok(s.db)
  }

  /** How a delivery goes on from the end of its transaction. */
  function Conclude(s: State, h: nat, outcome: TxOutcome): State
    requires h in s.handlers && s.handlers[h].message < |s.db.outbox|
  {
    match outcome
    case Threw(_) => Goto(s, h, Failing)
    case Duplicate => Goto(s, h, Handled)
    case Committed(db) =>
      var e := EventOf(s, h);
      var key := InboxKeyOf(s.db, s.handlers[h].message);
      var done := Goto(s, h, Handled).(db := db, applied := s.applied + multiset{key});
      if s.handlers[h].pc == StockJudged(false) && e.order < |s.audit| then
        WithAudit(done, e.order, s.audit[e.order].(held := e.items))
      else done
  }

  /** The rest of runOnce, on the tables as they are now. */
  function DoCommit(s: State, h: nat): State
    requires CanCommit(s, h)
  {
    Conclude(s, h, FinishRunOnce(InboxKeyOf(s.db, s.handlers[h].message), Work(s, h)))
  }

  /** Any statement of a handler may throw: the database or the provider is unreachable, or a transaction has
      committed but its acknowledgement was lost. What the transaction had done so far is rolled back. */
  predicate CanThrow(s: State, h: nat) {
    h in s.handlers && !s.handlers[h].pc.Failing? && !s.handlers[h].pc.Resent?
  }

  predicate AtPayment(s: State, h: nat) {
    h in s.handlers && s.handlers[h].message < |s.db.outbox| && EventOf(s, h).kind.InventoryReserved? &&
    EventOf(s, h).order < |s.audit|
  }

  /** INSERT ... ON CONFLICT DO NOTHING. */
  function DoClaimLedger(s: State, h: nat): State
    requires AtPayment(s, h)
  {
    var o := EventOf(s, h).order;
    if o in s.db.ledger then Goto(s, h, ClaimLost)
    else Goto(s, h, Charging).(db := s.db.(ledger := s.db.ledger[o := Authorization(None, None, s.now)]))
  }

  /** authorize returns `result`. */
  function Answer(s: State, h: nat, result: PaymentResult): State
    requires AtPayment(s, h)
  {
    var o := EventOf(s, h).order;
    WithAudit(Goto(s, h, Answered(result)), o, s.audit[o].(answers := s.audit[o].answers + {result}))
  }

  function DoReadLedger(s: State, h: nat): State
    requires AtPayment(s, h)
  {
    var o := EventOf(s, h).order;
    if o in s.db.ledger && Decision(s.db.ledger[o]).Some? then Answer(s, h, Decision(s.db.ledger[o]).value)
    else Goto(s, h, Undecided)
  }

  /** isClaimStale: a takeover, or PaymentInFlightError. */
  function DoJudgeStale(s: State, h: nat): State
    requires AtPayment(s, h)
  {
    var o := EventOf(s, h).order;
    if o in s.db.ledger && IsStale(s.db.ledger[o], s.now) then
      WithAudit(Goto(s, h, Charging), o, s.audit[o].(takeovers := s.audit[o].takeovers + 1))
    else Goto(s, h, Failing)
  }

  /** The provider's contract: a key it has seen before gets the outcome it got the first time. */
  predicate ProviderMaySay(s: State, o: OrderId, result: PaymentResult) {
    o in s.provider ==> result == s.provider[o]
  }

  function DoCharge(s: State, h: nat, result: PaymentResult): State
    requires AtPayment(s, h)
  {
    var o := EventOf(s, h).order;
    WithAudit(Goto(s, h, Charged(result)).(provider := s.provider[o := result]),
              o, s.audit[o].(providerCalls := s.audit[o].providerCalls + 1))
  }

  /** A provider call that throws without having decided anything. One that throws after deciding is a charge
      followed by ThrowStep. */
  function DoChargeFails(s: State, h: nat): State
    requires AtPayment(s, h)
  {
    var o := EventOf(s, h).order;
    WithAudit(Goto(s, h, Failing), o, s.audit[o].(providerCalls := s.audit[o].providerCalls + 1))
  }

  /** UPDATE ... WHERE authorized IS NULL, then return the provider's result. */
  function DoRecord(s: State, h: nat): State
    requires AtPayment(s, h) && s.handlers[h].pc.Charged?
  {
    var o := EventOf(s, h).order;
    var result := s.handlers[h].pc.result;
    var answered := Answer(s, h, result);
    if o in s.db.ledger && s.db.ledger[o].authorized.None? then
      answered.(db := s.db.(ledger := s.db.ledger[o := Decided(s.db.ledger[o], result)]))
    else answered
  }

  /** The retry error handler: park a copy in a wait queue, or dead-letter the message. */
  function DoRetry(s: State, h: nat): State
    requires h in s.handlers
  {
    var Handler(m, attempts, _) := s.handlers[h];
    if attempts < MAX_RETRIES then
      Goto(s, h, Resent).(broker := s.broker.(wait := s.broker.wait + multiset{Copy(m, attempts + 1)}))
    else
      s.(broker := s.broker.(dlq := s.broker.dlq + multiset{Copy(m, attempts)}), handlers := Without(s.handlers, h))
  }

  /** A wait queue's TTL runs out: the broker moves the copy back to its work queue. */
  function DoExpire(s: State, c: Copy): State {
    s.(broker := s.broker.(wait := s.broker.wait - multiset{c}, work := s.broker.work + multiset{c}))
  }

  // ---------- the transition system ----------

  predicate CanRequest(s: State, step: RequestStep) {
    match step
    case CreateStep(_, _) => true
    case PayStep(_, _) => true
    case CancelReadStep(req, _, _) => req !in s.cancels
    case CancelClaimStep(req) => CanCancelClaim(s, req)
    case CancelRestoreStep(req) => CanCancelRestore(s, req)
    case CancelCrashStep(req) => CanCancelCrash(s, req)
    case ReplenishStep(p, _) => p in s.db.stock && p in s.supplied
    case TickStep => true
  }

  function DoRequest(s: State, step: RequestStep): State
    requires CanRequest(s, step)
  {
    match step
    case CreateStep(user, lines) => DoCreate(s, user, lines)
    case PayStep(o, user) => DoPay(s, o, user)
    case CancelReadStep(req, o, user) => DoCancelRead(s, req, o, user)
    case CancelClaimStep(req) => DoCancelClaim(s, req)
    case CancelRestoreStep(req) => DoCancelRestore(s, req)
    case CancelCrashStep(req) => DoCancelCrash(s, req)
    case ReplenishStep(p, amount) => DoReplenish(s, p, amount)
    case TickStep => s.(now := s.now + 1)
  }

  predicate CanRelay(s: State, step: RelayStep) {
    match step
    case PublishStep(_, m) => CanPublish(s, m)
    case DrainCommitStep(d) => d in s.drains
    case DrainCrashStep(d) => d in s.drains
  }

  function DoRelay(s: State, step: RelayStep): State
    requires CanRelay(s, step)
  {
    match step
    case PublishStep(d, m) => DoPublish(s, d, m)
    case DrainCommitStep(d) => DoDrainCommit(s, d)
    case DrainCrashStep(d) => s.(drains := Without(s.drains, d))
  }

  predicate CanDelivery(s: State, step: DeliveryStep) {
    match step
    case DeliverStep(h, c) => h !in s.handlers && c in s.broker.work
    case CrashStep(h) => h in s.handlers
    case CheckInboxStep(h) => CanCheckInbox(s, h)
    case JudgeStockStep(h) => CanJudgeStock(s, h)
    case CommitStep(h) => CanCommit(s, h)
    case ThrowStep(h) => CanThrow(s, h)
    case RetryStep(h) => h in s.handlers && s.handlers[h].pc.Failing?
    case AckStep(h) => h in s.handlers && (s.handlers[h].pc.Handled? || s.handlers[h].pc.Resent?)
    case ExpireStep(c) => c in s.broker.wait
  }

  function DoDelivery(s: State, step: DeliveryStep): State
    requires CanDelivery(s, step)
  {
    match step
    case DeliverStep(h, c) => DoDeliver(s, h, c)
    case CrashStep(h) => DoCrash(s, h)
    case CheckInboxStep(h) => DoCheckInbox(s, h)
    case JudgeStockStep(h) => DoJudgeStock(s, h)
    case CommitStep(h) => DoCommit(s, h)
    case ThrowStep(h) => Goto(s, h, Failing)
    case RetryStep(h) => DoRetry(s, h)
    case AckStep(h) => s.(handlers := Without(s.handlers, h))
    case ExpireStep(c) => DoExpire(s, c)
  }

  predicate CanGateway(s: State, step: GatewayStep) {
    AtPayment(s, step.h) &&
    match step
    case ClaimLedgerStep(h) => s.handlers[h].pc.Start?
    case ReadLedgerStep(h) => s.handlers[h].pc.ClaimLost?
    case JudgeStaleStep(h) => s.handlers[h].pc.Undecided?
    case ChargeStep(h, result) => s.handlers[h].pc.Charging? && ProviderMaySay(s, EventOf(s, h).order, result)
    case ChargeFailsStep(h) => s.handlers[h].pc.Charging?
    case RecordStep(h) => s.handlers[h].pc.Charged?
  }

  function DoGateway(s: State, step: GatewayStep): State
    requires CanGateway(s, step)
  {
    match step
    case ClaimLedgerStep(h) => DoClaimLedger(s, h)
    case ReadLedgerStep(h) => DoReadLedger(s, h)
    case JudgeStaleStep(h) => DoJudgeStale(s, h)
    case ChargeStep(h, result) => DoCharge(s, h, result)
    case ChargeFailsStep(h) => DoChargeFails(s, h)
    case RecordStep(h) => DoRecord(s, h)
  }

  predicate Enabled(s: State, step: Step) {
    match step
    case Request(r) => CanRequest(s, r)
    case Relay(r) => CanRelay(s, r)
    case Delivery(d) => CanDelivery(s, d)
    case Gateway(g) => CanGateway(s, g)
  }

  function Apply(s: State, step: Step): State
    requires Enabled(s, step)
  {
    match step
    case Request(r) => DoRequest(s, r)
    case Relay(r) => DoRelay(s, r)
    case Delivery(d) => DoDelivery(s, d)
    case Gateway(g) => DoGateway(s, g)
  }

  ghost predicate Next(s: State, s': State) {
    exists step :: Enabled(s, step) && s' == Apply(s, step)
  }

  /** Empty tables apart from the stocked catalogue, and nothing in flight. */
  ghost predicate Init(s: State) {
    && s.db.orders == [] && s.db.outbox == [] && s.db.published == {} && s.db.inbox == {} && s.db.ledger == map[]
    && (forall p | p in s.db.stock :: s.db.stock[p] >= 0)
    && s.broker == Broker(multiset{}, multiset{}, multiset{})
    && s.drains == map[] && s.handlers == map[] && s.cancels == map[] && s.provider == map[]
    && s.audit == [] && s.supplied == s.db.stock && s.applied == multiset{}
  }

  ghost predicate Follows(run: seq<State>, i: nat)
    requires i + 1 < |run|
  {
    Next(run[i], run[i + 1])
  }

  ghost predicate IsRun(run: seq<State>) {
    run != [] && Init(run[0]) && forall i: nat :: i + 1 < |run| ==> Follows(run, i)
  }
}
