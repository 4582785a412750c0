/** What every reachable state of the saga satisfies, one predicate per concern. */
module SagaInvariant {
  import opened Common
  import opened OrderStateMachine
  import opened Stock
  import opened Tables
  import opened Saga

  // ---------- sums over orders ----------

  /** What all orders together still hold of product `p`. */
  function HeldTotal(audit: seq<Audit>, p: ProductId): nat {
    if audit == [] then 0
    else HeldTotal(audit[..|audit| - 1], p) + Total(audit[|audit| - 1].held, p)
  }

  lemma HeldTotalSnoc(audit: seq<Audit>, a: Audit, p: ProductId)
    ensures HeldTotal(audit + [a], p) == HeldTotal(audit, p) + Total(a.held, p)
  {
    assert (audit + [a])[..|audit|] == audit;
  }

  lemma {:induction false} HeldTotalUpdate(audit: seq<Audit>, o: nat, a: Audit, p: ProductId)
    requires o < |audit|
    ensures HeldTotal(audit[o := a], p) + Total(audit[o].held, p) == HeldTotal(audit, p) + Total(a.held, p)
  {
    var n := |audit| - 1;
    if o == n {
      assert audit[o := a][..n] == audit[..n];
    } else {
      assert audit[o := a][..n] == audit[..n][o := a];
      HeldTotalUpdate(audit[..n], o, a, p);
    }
  }

  // ---------- the tables ----------

  predicate IsSuffix(t: seq<Line>, s: seq<Line>) {
    |t| <= |s| && t == s[|s| - |t|..]
  }

  /** What an order holds follows from its row, except while or after it is cancelled. */
  ghost predicate HoldsWhatItShould(db: Db, audit: seq<Audit>, o: OrderId)
    requires o < |db.orders| && o < |audit|
  {
    var order, held := db.orders[o], audit[o].held;
    match order.status
    case PENDING => held == []
    case FAILED => held == if order.paymentInitiated then order.lines else []
    case CANCELLED => IsSuffix(held, order.lines)
    case _ => held == order.lines
  }

  predicate Authorised(db: Db, o: OrderId) {
    o in db.ledger && Decision(db.ledger[o]) == Some(Authorized)
  }

  predicate DeclinedBy(db: Db, o: OrderId) {
    o in db.ledger && Decision(db.ledger[o]).Some? && Decision(db.ledger[o]).value.Declined?
  }

  /** Payment facts an order's row implies. */
  ghost predicate PaidAsRecorded(db: Db, o: OrderId)
    requires o < |db.orders|
  {
    var order := db.orders[o];
    && (order.status in {PENDING, CANCELLED} ==> !order.paymentInitiated)
    && (order.status in {PAID, COMPLETED} ==> order.paymentInitiated && Authorised(db, o))
    && (order.status == FAILED && order.paymentInitiated ==> DeclinedBy(db, o))
    && (o in db.ledger ==> order.paymentInitiated)
  }

  predicate IsEvent(db: Db, m: MessageId, kind: EventKind, o: OrderId) {
    m < |db.outbox| && db.outbox[m].kind == kind && db.outbox[m].order == o
  }

  ghost predicate HasEvent(db: Db, kind: EventKind, o: OrderId) {
    exists m: MessageId :: IsEvent(db, m, kind, o)
  }

  /** When an order must have announced an event of each kind. */
  predicate Announces(order: Order, kind: EventKind) {
    match kind
    case Created => true
    case InventoryReserved => order.paymentInitiated
    case PaymentProcessed => order.status in {PAID, COMPLETED}
    case Completed => order.status == COMPLETED
    case Failed => order.status == FAILED
  }

  ghost predicate Announced(db: Db, o: OrderId)
    requires o < |db.orders|
  {
    forall kind :: Announces(db.orders[o], kind) ==> HasEvent(db, kind, o)
  }

  /** What an outbox row says about its order, and whether its consumer has had it. */
  ghost predicate EventOk(db: Db, m: MessageId)
    requires m < |db.outbox|
  {
    var e := db.outbox[m];
    && e.order < |db.orders|
    && var order := db.orders[e.order];
    && Announces(order, e.kind)
    && match e.kind
       case Created =>
         e.items == order.lines && (order.status == PENDING ==> !Processed(db, m)) &&
         (!Processed(db, m) ==> order.status in {PENDING, CANCELLED})
       case InventoryReserved => !Processed(db, m) <==> order.status == RESERVED
       case PaymentProcessed => !Processed(db, m) <==> order.status == PAID
       case _ => true
  }

  /** No order announces the same thing twice. */
  ghost predicate EventsUnique(db: Db) {
    forall m, n :: 0 <= m < n < |db.outbox| ==>
      db.outbox[m].kind != db.outbox[n].kind || db.outbox[m].order != db.outbox[n].order
  }

  ghost predicate TablesOk(db: Db, audit: seq<Audit>) {
    && |audit| == |db.orders|
    && (forall o :: 0 <= o < |db.orders| ==> HoldsWhatItShould(db, audit, o))
    && (forall o :: 0 <= o < |db.orders| ==> PaidAsRecorded(db, o))
    && (forall o :: 0 <= o < |db.orders| ==> Announced(db, o))
    && (forall m :: 0 <= m < |db.outbox| ==> EventOk(db, m))
    && EventsUnique(db)
    && (forall o | o in db.ledger :: o < |db.orders|)
    && (forall k | k in db.inbox :: k.0 < |db.outbox|)
  }

  // ---------- stock ----------

  ghost predicate StockOk(stock: Shelf, supplied: Shelf, audit: seq<Audit>) {
    && stock.Keys == supplied.Keys
    && (forall p | p in stock :: stock[p] >= 0)
    && (forall p {:trigger HeldTotal(audit, p)} | p in stock :: stock[p] + HeldTotal(audit, p) == supplied[p])
  }

  // ---------- cancellations ----------

  ghost predicate CancelOk(s: State, r: nat)
    requires r in s.cancels && |s.audit| == |s.db.orders|
  {
    var c := s.cancels[r];
    && c.order < |s.db.orders|
    && match c
       case CancelReading(o, wasReserved, lines) =>
         lines == s.db.orders[o].lines && (wasReserved ==> s.db.orders[o].status != PENDING)
       case CancelRestoring(o, remaining) =>
         s.db.orders[o].status == CANCELLED && remaining != [] &&
         s.audit[o].held == remaining && s.audit[o].loss.None?
  }

  predicate Restores(s: State, r: nat, o: OrderId) {
    r in s.cancels && s.cancels[r].CancelRestoring? && s.cancels[r].order == o
  }

  /** A cancelled order that still holds stock is being restored or has been lost track of. */
  ghost predicate HoldExplained(s: State, o: OrderId)
    requires o < |s.db.orders| == |s.audit|
  {
    && (s.db.orders[o].status == CANCELLED && s.audit[o].held != [] ==>
          s.audit[o].loss.Some? || exists r :: Restores(s, r, o))
    && (s.audit[o].loss.Some? ==> s.db.orders[o].status == CANCELLED)
    && (s.audit[o].loss == Some(ReadPendingClaimedReserved) ==> s.audit[o].held == s.db.orders[o].lines)
  }

  ghost predicate CancelsOk(s: State) {
    && |s.audit| == |s.db.orders|
    && (forall r {:trigger CancelOk(s, r)} | r in s.cancels :: CancelOk(s, r))
    && (forall r, q, o :: Restores(s, r, o) && Restores(s, q, o) ==> r == q)
    && (forall o :: 0 <= o < |s.db.orders| ==> HoldExplained(s, o))
  }

  // ---------- payments ----------

  /** A decision in the ledger is what the provider said. */
  predicate LedgerAgrees(s: State, o: OrderId) {
    o in s.db.ledger && Decision(s.db.ledger[o]).Some? ==>
      o in s.provider && Decision(s.db.ledger[o]).value == s.provider[o]
  }

  /** Whatever `authorize` has returned is what the ledger says. */
  ghost predicate AnswersAgree(s: State, o: OrderId)
    requires o < |s.audit|
  {
    forall a | a in s.audit[o].answers :: o in s.db.ledger && Decision(s.db.ledger[o]) == Some(a)
  }

  ghost predicate PaymentsOk(s: State) {
    && (forall o :: LedgerAgrees(s, o))
    && (forall o | o in s.provider :: o in s.db.ledger)
    && (forall o :: 0 <= o < |s.audit| ==> AnswersAgree(s, o))
  }

  /** The deliveries that are about to call the provider for `o`. */
  function ChargingFor(s: State, o: OrderId): set<nat> {
    set h | h in s.handlers && s.handlers[h].message < |s.db.outbox| &&
            s.handlers[h].pc.Charging? && EventOf(s, h).order == o
  }

  /** Every provider call, made or about to be made, is paid for by the claim or by a takeover, and there is
      nothing to take over before the claim. */
  ghost predicate ChargeOk(s: State, o: OrderId)
    requires o < |s.audit|
  {
    s.audit[o].providerCalls + |ChargingFor(s, o)| <=
    (if o in s.db.ledger then 1 else 0) + s.audit[o].takeovers &&
    (o !in s.db.ledger ==> s.audit[o].takeovers == 0)
  }

  ghost predicate ChargesOk(s: State) {
    forall o :: 0 <= o < |s.audit| ==> ChargeOk(s, o)
  }

  // ---------- deliveries and the broker ----------

  ghost predicate HandlerOk(s: State, h: nat)
    requires h in s.handlers
  {
    var Handler(m, _, pc) := s.handlers[h];
    && m < |s.db.outbox|
    && var e := s.db.outbox[m];
    match pc
    case StockJudged(_) => e.kind.Created?
    case InboxFree => !e.kind.InventoryReserved?
    case ClaimLost => e.kind.InventoryReserved? && e.order in s.db.ledger
    case Undecided => e.kind.InventoryReserved? && e.order in s.db.ledger
    case Charging => e.kind.InventoryReserved? && e.order in s.db.ledger
    case Charged(r) =>
      e.kind.InventoryReserved? && e.order in s.db.ledger && e.order in s.provider && s.provider[e.order] == r
    case Answered(r) =>
      e.kind.InventoryReserved? && e.order in s.db.ledger && Decision(s.db.ledger[e.order]) == Some(r)
    case AnsweredFree(r) =>
      e.kind.InventoryReserved? && e.order in s.db.ledger && Decision(s.db.ledger[e.order]) == Some(r)
    case Handled => Processed(s.db, m)
    case _ => true
  }

  predicate InBag(bag: multiset<Copy>, c: Copy) { c in bag }

  ghost predicate Queued(bag: multiset<Copy>, m: MessageId) {
    exists a: nat :: InBag(bag, Copy(m, a))
  }

  predicate Carries(s: State, h: nat, m: MessageId) {
    h in s.handlers && s.handlers[h].message == m && !s.handlers[h].pc.Resent?
  }

  /** The broker still has the message: queued, waiting, dead-lettered or unacknowledged. */
  ghost predicate InBroker(s: State, m: MessageId) {
    || Queued(s.broker.work, m)
    || Queued(s.broker.wait, m)
    || Queued(s.broker.dlq, m)
    || exists h :: Carries(s, h, m)
  }

  ghost predicate BrokerOk(s: State) {
    && (forall c | c in s.broker.work :: c.message < |s.db.outbox|)
    && (forall c | c in s.broker.wait :: c.message < |s.db.outbox|)
    && (forall h {:trigger HandlerOk(s, h)} | h in s.handlers :: HandlerOk(s, h))
    && (forall m | m in s.db.published :: m < |s.db.outbox|)
    && (forall d, m :: d in s.drains && m in s.drains[d] ==> m < |s.db.outbox|)
  }

  /** The message has been processed or has not left the broker. */
  ghost predicate NotDropped(s: State, m: MessageId) {
    m < |s.db.outbox| && (Processed(s.db, m) || InBroker(s, m))
  }

  /** Whatever was published, in a committed or a running drain, is not dropped. */
  ghost predicate NothingDropped(s: State) {
    && (forall m {:trigger NotDropped(s, m)} | m in s.db.published :: NotDropped(s, m))
    && (forall d, m {:trigger m in s.drains[d], NotDropped(s, m)} ::
          d in s.drains && m in s.drains[d] ==> NotDropped(s, m))
  }

  /** Work has been committed once for each inbox record and never otherwise. */
  ghost predicate AppliedOk(s: State) {
    forall k :: s.applied[k] == if k in s.db.inbox then 1 else 0
  }

  ghost predicate Inv(s: State) {
    && TablesOk(s.db, s.audit)
    && StockOk(s.db.stock, s.supplied, s.audit)
    && CancelsOk(s)
    && PaymentsOk(s)
    && ChargesOk(s)
    && BrokerOk(s)
    && NothingDropped(s)
    && AppliedOk(s)
  }

  // ---------- how the tables evolve ----------

  ghost predicate RowEvolves(a: Order, b: Order) {
    && a.user == b.user && a.lines == b.lines
    && (a.paymentInitiated ==> b.paymentInitiated)
    && (a.status == b.status || IsTransitionAllowed(a.status, b.status))
    && (IsTerminalStatus(a.status) ==> a == b)
  }

  ghost predicate OrderEvolves(a: Db, b: Db, o: OrderId)
    requires o < |a.orders| && o < |b.orders|
  {
    RowEvolves(a.orders[o], b.orders[o])
  }

  /** One step never deletes a row, rewrites an event, un-processes a message,
      moves an order against the state machine or changes a decision. */
  ghost predicate Evolves(a: Db, b: Db) {
    && |a.orders| <= |b.orders| && a.outbox <= b.outbox
    && a.published <= b.published && a.inbox <= b.inbox
    && (forall o :: 0 <= o < |a.orders| ==> OrderEvolves(a, b, o))
    && (forall o | o in a.ledger :: o in b.ledger && (Decision(a.ledger[o]).Some? ==> b.ledger[o] == a.ledger[o]))
  }
}
