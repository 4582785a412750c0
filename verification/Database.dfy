/**
 The services and consumers as they run against the tables: statements in the source's
 order, loops, compensation and rollback included. Each method is proved to do exactly what
 the corresponding atomic transaction of `Tables` does, which is what the saga interleaves.
 */
module Database {
  import opened Common
  import opened OrderStateMachine
  import opened Stock
  import opened Tables
  import Saga

  /** What a consumer's delivery comes to. */
  datatype Outcome = ProcessedNow | Skipped | Rethrown(error: Error) | DeadLettered

  /** runOnce as one transaction: skip a recorded message, otherwise work and record together. */
  function RunOnce(db: Db, key: InboxKey, work: Result<Db>): (Db, Outcome) {
    if key in db.inbox then (db, Skipped)
    else
      match FinishRunOnce(key, work)
      case Committed(done) => (done, ProcessedNow)
      case Duplicate => (db, Skipped)
      case Threw(e) => (db, Rethrown(e))
  }

  /** processEventOnce: a message without an id is dead-lettered, any other goes through the inbox. */
  function ProcessEventOnce(db: Db, id: Option<MessageId>, consumer: Consumer, work: Result<Db>): (Db, Outcome) {
    match id
    case None => (db, DeadLettered)
    case Some(m) => RunOnce(db, (m, consumer), work)
  }

  /** authorize with nothing interleaved: the ledger afterwards and what it returns, given what the
      provider would say. None is PaymentInFlightError. */
  function AuthorizeAlone(ledger: map<OrderId, Authorization>, o: OrderId, now: nat, providerSays: PaymentResult)
    : (map<OrderId, Authorization>, Option<PaymentResult>)
  {
    if o !in ledger then (ledger[o := Decided(Authorization(None, None, now), providerSays)], Some(providerSays))
    else if Decision(ledger[o]).Some? then (ledger, Decision(ledger[o]))
    else if Saga.IsStale(ledger[o], now) then (ledger[o := Decided(ledger[o], providerSays)], Some(providerSays))
    else (ledger, None)
  }

  /** authorizeAndAdvance with nothing interleaved. */
  function AdvanceAlone(db: Db, id: Option<MessageId>, e: Event, now: nat, providerSays: PaymentResult): (Db, Outcome) {
    match id
    case None => (db, DeadLettered)
    case Some(m) =>
      var (ledger, result) := AuthorizeAlone(db.ledger, e.order, now, providerSays);
      var db' := db.(ledger := ledger);
      match result
      case None => (db', Rethrown(PaymentInFlight))
      case Some(r) => RunOnce(db', (m, Payment), PaymentWork(db', e, r))
  }

  /** Line `k` is the first that cannot be served on top of the ones before it. */
  predicate FirstShort(shelf: Shelf, lines: seq<Line>, k: nat) {
    k < |lines| && CanReserve(shelf, lines[..k]) && !CanReserve(shelf, lines[..k + 1])
  }

  class Database {
    var orders: seq<Order>
    var stock: Shelf
    var outbox: seq<Event>
    var published: set<MessageId>
    var inbox: set<InboxKey>
    var ledger: map<OrderId, Authorization>

    constructor (catalogue: Shelf)
      ensures Snapshot() == Db([], catalogue, [], {}, {}, map[])
    {
      orders, stock, outbox, published, inbox, ledger := [], catalogue, [], {}, {}, map[];
    }

    function Snapshot(): Db
      reads this
    {
      Db(orders, stock, outbox, published, inbox, ledger)
    }

    /** ROLLBACK. */
    method Rollback(db: Db)
      modifies this
      ensures Snapshot() == db
    {
      orders, stock, outbox, published, inbox, ledger :=
        db.orders, db.stock, db.outbox, db.published, db.inbox, db.ledger;
    }

    // ---------- ProductsService ----------

    /** restoreStock: one unconditional UPDATE per line. */
    method RestoreStock(lines: seq<Line>)
      modifies this`stock
      ensures stock == Restored(old(stock), lines)
      ensures stock.Keys == old(stock).Keys
      ensures forall p | p in stock :: stock[p] == old(stock)[p] + Total(lines, p)
    {
      var i := 0;
      while i < |lines|
        invariant 0 <= i <= |lines|
        invariant stock == Restored(old(stock), lines[..i])
      {
        RestoredSnoc(old(stock), lines[..i], lines[i]);
        assert lines[..i + 1] == lines[..i] + [lines[i]];
        if lines[i].product in stock {
          stock := stock[lines[i].product := stock[lines[i].product] + lines[i].quantity];
        }
        i := i + 1;
      }
      assert lines[..i] == lines;
    }

    /** reserveStock: conditional decrements; a short product undoes the lines already applied. */
    method ReserveStock(lines: seq<Line>) returns (short: Option<ProductId>)
      modifies this`stock
      ensures short.None? <==> CanReserve(old(stock), lines)
      ensures short.None? <==>
        forall l | l in lines :: l.product in old(stock) && Total(lines, l.product) <= old(stock)[l.product]
      ensures short.None? ==> stock == Stock.Reserved(old(stock), lines)
      ensures short.None? ==>
        stock.Keys == old(stock).Keys && forall p | p in stock :: stock[p] == old(stock)[p] - Total(lines, p)
      ensures short.Some? ==> stock == old(stock)
      ensures short.Some? ==> exists k: nat :: FirstShort(old(stock), lines, k) && lines[k].product == short.value
    {
      var applied: seq<Line> := [];
      var i := 0;
      assert Stock.Reserved(stock, []) == stock;
      while i < |lines|
        invariant 0 <= i <= |lines| && applied == lines[..i]
        invariant CanReserve(old(stock), applied) && stock == Stock.Reserved(old(stock), applied)
      {
        var line := lines[i];
        assert lines[..i + 1] == applied + [line];
        CanReserveSnoc(old(stock), applied, line);
        if line.product !in stock || stock[line.product] < line.quantity {
          assert FirstShort(old(stock), lines, i);
          PrefixOfReservable(old(stock), lines, i + 1);
          RestoreUndoesReserve(old(stock), applied);
          RestoreStock(applied);
          return Some(line.product);
        }
        ReservedSnoc(old(stock), applied, line);
        stock := stock[line.product := stock[line.product] - line.quantity];
        applied := applied + [line];
        i := i + 1;
      }
      assert applied == lines;
      return None;
    }

    // ---------- OrdersService ----------

    method Enqueue(kind: EventKind, order: OrderId, items: seq<Line>)
      modifies this`outbox
      ensures Snapshot() == Tables.Enqueue(old(Snapshot()), kind, order, items)
      ensures outbox == old(outbox) + [Event(kind, order, items)]
    {
      outbox := outbox + [Event(kind, order, items)];
    }

    method CreateOrder(user: UserId, lines: seq<Line>) returns (id: OrderId)
      modifies this
      ensures id == |old(orders)| && Snapshot() == Tables.CreateOrder(old(Snapshot()), user, lines)
      ensures orders == old(orders) + [Order(user, PENDING, false, lines)]
      ensures outbox == old(outbox) + [Event(Created, id, lines)]
      ensures Snapshot() == old(Snapshot()).(orders := orders, outbox := outbox)
    {
      id := |orders|;
      orders := orders + [Order(user, PENDING, false, lines)];
      Enqueue(Created, id, lines);
    }

    /** transitionOrder once it has read the status `seen`, which may be out of date by now: validate, then
        compare-and-set. It moves the row as it is, legally, or changes nothing. */
    method TransitionSeen(o: OrderId, seen: OrderStatus, to: OrderStatus) returns (error: Option<Error>)
      modifies this`orders
      ensures error.None? <==> o < |old(orders)| && old(orders)[o].status == seen && IsTransitionAllowed(seen, to)
      ensures error.None? ==> Tables.TransitionOrder(old(Snapshot()), o, to) == Ok(Snapshot())
      ensures error.None? ==> orders == old(orders)[o := old(orders)[o].(status := to)]
      ensures error.Some? ==> error == Some(Conflict) && Snapshot() == old(Snapshot())
    {
      if !IsTransitionAllowed(seen, to) { return Some(Conflict); }
      var affected := o < |orders| && orders[o].status == seen;
      if affected {
        orders := orders[o := orders[o].(status := to)];
      }
      return if affected then None else Some(Conflict);
    }

    /** transitionOrder with nothing between its read and its UPDATE. */
    method TransitionOrder(o: OrderId, to: OrderStatus) returns (error: Option<Error>)
      modifies this`orders
      ensures match Tables.TransitionOrder(old(Snapshot()), o, to)
              case Ok(db) => error.None? && Snapshot() == db
              case Err(e) => error == Some(e) && Snapshot() == old(Snapshot())
      ensures error == Some(NotFound) <==> o >= |old(orders)|
      ensures error.None? <==> o < |old(orders)| && IsTransitionAllowed(old(orders)[o].status, to)
      ensures error.None? ==> orders == old(orders)[o := old(orders)[o].(status := to)]
    {
      if o >= |orders| { return Some(NotFound); }
      error := TransitionSeen(o, orders[o].status, to);
    }

    method InitiatePayment(o: OrderId, user: UserId) returns (error: Option<Error>)
      modifies this
      ensures match Tables.InitiatePayment(old(Snapshot()), o, user)
              case Ok(db) => error.None? && Snapshot() == db
              case Err(e) => error == Some(e) && Snapshot() == old(Snapshot())
      ensures error == Some(NotFound) <==> o >= |old(orders)| || old(orders)[o].user != user
      ensures error.None? <==>
        o < |old(orders)| && old(orders)[o].user == user &&
        old(orders)[o].status == RESERVED && !old(orders)[o].paymentInitiated
      ensures error.None? ==>
        && orders == old(orders)[o := old(orders)[o].(paymentInitiated := true)]
        && outbox == old(outbox) + [Event(InventoryReserved, o, [])]
        && Snapshot() == old(Snapshot()).(orders := orders, outbox := outbox)
    {
      if o >= |orders| || orders[o].user != user { return Some(NotFound); }
      if orders[o].status != RESERVED { return Some(Conflict); }
      if orders[o].paymentInitiated { return Some(Conflict); }
      orders := orders[o := orders[o].(paymentInitiated := true)];
      Enqueue(InventoryReserved, o, []);
      return None;
    }

    /** cancelOrder once it has read the row `seen`, which may be out of date by now: the claim goes by the row
        as it is, the restore by the row as it was read. */
    method CancelSeen(o: OrderId, seen: Order) returns (error: Option<Error>)
      modifies this`orders, this`stock
      ensures error.None? <==> o < |old(orders)| && Cancellable(seen) && Cancellable(old(orders)[o])
      ensures error.None? ==>
        && old(orders)[o].status in {PENDING, RESERVED}
        && !(old(orders)[o].status == RESERVED && old(orders)[o].paymentInitiated)
        && orders == old(orders)[o := old(orders)[o].(status := CANCELLED)]
      ensures error.None? ==>
        Snapshot() == SetStatus(old(Snapshot()), o, CANCELLED).(
          stock := if seen.status == RESERVED then Restored(old(stock), seen.lines) else old(stock))
      ensures error.Some? ==> error == Some(Conflict) && Snapshot() == old(Snapshot())
    {
      var cancellable := seen.status == PENDING || (seen.status == RESERVED && !seen.paymentInitiated);
      if !cancellable { return Some(Conflict); }
      var wasReserved := seen.status == RESERVED;
      var affected := o < |orders| && (orders[o].status == PENDING || AwaitingPayment(orders[o]));
      if !affected { return Some(Conflict); }
      orders := orders[o := orders[o].(status := CANCELLED)];
      if wasReserved {
        RestoreStock(seen.lines);
      }
      return None;
    }

    /** cancelOrder with nothing interleaved: the order ends CANCELLED and every unit it had
        taken is back, or nothing changes. */
    method CancelOrder(o: OrderId, user: UserId) returns (error: Option<Error>)
      modifies this`orders, this`stock
      ensures error == Some(NotFound) <==> o >= |old(orders)| || old(orders)[o].user != user
      ensures error.None? <==>
        o < |old(orders)| && old(orders)[o].user == user &&
        (old(orders)[o].status == PENDING || (old(orders)[o].status == RESERVED && !old(orders)[o].paymentInitiated))
      ensures error.None? ==>
        Snapshot() == SetStatus(old(Snapshot()), o, CANCELLED).(
          stock := if old(orders)[o].status == RESERVED then Restored(old(stock), old(orders)[o].lines) else old(stock))
      ensures error.Some? ==> Snapshot() == old(Snapshot())
    {
      if o >= |orders| || orders[o].user != user { return Some(NotFound); }
      error := CancelSeen(o, orders[o]);
    }

    // ---------- the consumers ----------

    /** InventoryConsumer.reserve. */
    method Reserve(id: Option<MessageId>, e: Event) returns (outcome: Outcome)
      modifies this
      ensures (Snapshot(), outcome) ==
        var db := old(Snapshot());
        ProcessEventOnce(db, id, Inventory, InventoryWork(db, e, !CanReserve(db.stock, e.items)))
    {
      if id.None? { return DeadLettered; }
      var key := (id.value, Inventory);
      var saved := Snapshot();
      if key in inbox { return Skipped; }
      var short := ReserveStock(e.items);
      var error: Option<Error>;
      if short.None? {
        error := TransitionOrder(e.order, RESERVED);
      } else {
        assert Snapshot() == saved;
        error := TransitionOrder(e.order, FAILED);
        if error.None? { Enqueue(Failed, e.order, []); }
      }
      if error.Some? {
        Rollback(saved);
        return Rethrown(error.value);
      }
      inbox := inbox + {key};
      return ProcessedNow;
    }

    /** PaymentGateway.authorize: claim, look up or judge staleness, charge, record. */
    method Authorize(o: OrderId, now: nat, providerSays: PaymentResult) returns (result: Option<PaymentResult>)
      modifies this`ledger
      ensures (ledger, result) == AuthorizeAlone(old(ledger), o, now, providerSays)
      ensures result.Some? ==> o in ledger && Decision(ledger[o]) == result
      // the first caller owns the charge; a decision is returned, not made again
      ensures o !in old(ledger) ==>
        && result == Some(providerSays)
        && ledger == old(ledger)[o := Decided(Authorization(None, None, now), providerSays)]
      ensures o in old(ledger) && old(ledger)[o].authorized.Some? ==>
        result == Decision(old(ledger)[o]) && ledger == old(ledger)
      // an undecided claim is taken over when it is more than 30 seconds old, and refused otherwise
      ensures o in old(ledger) && old(ledger)[o].authorized.None? ==>
        && (result.Some? <==> old(ledger)[o].createdAt + 30 < now)
        && (result.Some? ==> result == Some(providerSays) && ledger == old(ledger)[o := ledger[o]])
        && (result.Some? ==> ledger[o].createdAt == old(ledger)[o].createdAt)
      ensures result.None? ==> ledger == old(ledger)
      ensures forall q | q in old(ledger) && Decision(old(ledger)[q]).Some? ::
        q in ledger && ledger[q] == old(ledger)[q]
    {
      if o in ledger {
        var existing := ledger[o];
        if existing.authorized.Some? { return Decision(existing); }
        if !Saga.IsStale(ledger[o], now) { return None; }
      } else {
        ledger := ledger[o := Authorization(None, None, now)];
      }
      if ledger[o].authorized.None? {
        ledger := ledger[o := Decided(ledger[o], providerSays)];
      }
      assert ledger == old(ledger)[o := ledger[o]];
      return Some(providerSays);
    }

    /** PaymentConsumer.authorizeAndAdvance. */
    method AuthorizeAndAdvance(id: Option<MessageId>, e: Event, now: nat, providerSays: PaymentResult)
      returns (outcome: Outcome)
      modifies this
      ensures (Snapshot(), outcome) == AdvanceAlone(old(Snapshot()), id, e, now, providerSays)
    {
      if id.None? { return DeadLettered; }
      var key := (id.value, Payment);
      var result := Authorize(e.order, now, providerSays);
      if result.None? { return Rethrown(PaymentInFlight); }
      var saved := Snapshot();
      if key in inbox { return Skipped; }
      var authorized := result.value.Authorized?;
      var error := TransitionOrder(e.order, if authorized then PAID else FAILED);
      if error.Some? {
        Rollback(saved);
        return Rethrown(error.value);
      }
      if authorized {
        Enqueue(PaymentProcessed, e.order, []);
      } else {
        Enqueue(Failed, e.order, []);
      }
      inbox := inbox + {key};
      return ProcessedNow;
    }

    /** OrderCompletionConsumer.complete. */
    method Complete(id: Option<MessageId>, e: Event) returns (outcome: Outcome)
      modifies this
      ensures (Snapshot(), outcome) ==
        ProcessEventOnce(old(Snapshot()), id, Completion, CompletionWork(old(Snapshot()), e))
    {
      if id.None? { return DeadLettered; }
      var key := (id.value, Completion);
      var saved := Snapshot();
      if key in inbox { return Skipped; }
      var error := TransitionOrder(e.order, COMPLETED);
      if error.Some? {
        Rollback(saved);
        return Rethrown(error.value);
      }
      Enqueue(Completed, e.order, []);
      inbox := inbox + {key};
      return ProcessedNow;
    }
  }

  /** If a prefix cannot be reserved, neither can the whole request. */
  lemma {:induction false} PrefixOfReservable(shelf: Shelf, lines: seq<Line>, k: nat)
    requires k <= |lines| && !CanReserve(shelf, lines[..k])
    ensures !CanReserve(shelf, lines)
    decreases |lines| - k
  {
    if k < |lines| {
      CanReserveSnoc(shelf, lines[..k], lines[k]);
      assert lines[..k + 1] == lines[..k] + [lines[k]];
      PrefixOfReservable(shelf, lines, k + 1);
    } else {
      assert lines[..k] == lines;
    }
  }

  /** The tables in which order `o` has reached `to` by the first handling of `key`, announced by `announced`. */
  predicate Reached(db: Db, db': Db, key: InboxKey, o: OrderId, to: OrderStatus, announced: seq<Event>) {
    && o < |db.orders| && db'.orders == db.orders[o := db.orders[o].(status := to)]
    && db'.outbox == db.outbox + announced && db'.inbox == db.inbox + {key} && db'.published == db.published
  }

  /** What handling OrderCreated comes to: without an id it is dead-lettered, once recorded it is skipped, and
      otherwise a PENDING order is RESERVED if every product covers its total and FAILED if not. A duplicate that
      finds the order RESERVED and the stock short would fail it. Anything else is an error and changes nothing. */
  lemma InventoryOutcome(db: Db, id: Option<MessageId>, e: Event)
    requires e.kind.Created?
    ensures var enough :=
        forall l | l in e.items :: l.product in db.stock && Total(e.items, l.product) <= db.stock[l.product];
      var (db', outcome) := ProcessEventOnce(db, id, Inventory, InventoryWork(db, e, !CanReserve(db.stock, e.items)));
      && (outcome.DeadLettered? <==> id.None?)
      && (outcome.Skipped? <==> id.Some? && (id.value, Inventory) in db.inbox)
      && (outcome.ProcessedNow? <==>
            id.Some? && (id.value, Inventory) !in db.inbox && e.order < |db.orders| &&
            (db.orders[e.order].status == PENDING || (db.orders[e.order].status == RESERVED && !enough)))
      && (outcome.ProcessedNow? ==>
            && Reached(db, db', (id.value, Inventory), e.order, if enough then RESERVED else FAILED,
                       if enough then [] else [Event(Failed, e.order, [])])
            && db'.stock.Keys == db.stock.Keys && db'.ledger == db.ledger
            && forall p | p in db.stock :: db'.stock[p] == db.stock[p] - (if enough then Total(e.items, p) else 0))
      && (!outcome.ProcessedNow? ==> db' == db)
  {
    if id.Some? && e.order < |db.orders| { TransitionRules(db.orders[e.order].status, RESERVED); }
  }

  /** What handling InventoryReserved comes to, given the result that `authorize` returned. */
  lemma PaymentOutcome(db: Db, id: Option<MessageId>, e: Event, now: nat, says: PaymentResult)
    ensures var (ledger, result) := AuthorizeAlone(db.ledger, e.order, now, says);
      var (db', outcome) := AdvanceAlone(db, id, e, now, says);
      && (outcome.DeadLettered? <==> id.None?)
      && (outcome == Rethrown(PaymentInFlight) <==> id.Some? && result.None?)
      && (outcome.Skipped? <==> id.Some? && result.Some? && (id.value, Payment) in db.inbox)
      && (outcome.ProcessedNow? <==>
            id.Some? && result.Some? && (id.value, Payment) !in db.inbox && e.order < |db.orders| &&
            (db.orders[e.order].status == RESERVED ||
             (db.orders[e.order].status == PENDING && result.value.Declined?)))
      && (outcome.ProcessedNow? ==>
            && db'.stock == db.stock
            && Reached(db, db', (id.value, Payment), e.order, if result.value.Authorized? then PAID else FAILED,
                       [Event(if result.value.Authorized? then PaymentProcessed else Failed, e.order, [])]))
      && (id.None? ==> db' == db)
      && (id.Some? ==> db'.ledger == ledger)
      && (!outcome.ProcessedNow? ==> db' == db.(ledger := db'.ledger))
  {
    if e.order < |db.orders| { TransitionRules(db.orders[e.order].status, PAID); }
  }

  /** What handling PaymentProcessed comes to. */
  lemma CompletionOutcome(db: Db, id: Option<MessageId>, e: Event)
    ensures var (db', outcome) := ProcessEventOnce(db, id, Completion, CompletionWork(db, e));
      && (outcome.DeadLettered? <==> id.None?)
      && (outcome.Skipped? <==> id.Some? && (id.value, Completion) in db.inbox)
      && (outcome.ProcessedNow? <==>
            id.Some? && (id.value, Completion) !in db.inbox && e.order < |db.orders| &&
            db.orders[e.order].status == PAID)
      && (outcome.ProcessedNow? ==>
            && db'.stock == db.stock && db'.ledger == db.ledger
            && Reached(db, db', (id.value, Completion), e.order, COMPLETED, [Event(Completed, e.order, [])]))
      && (!outcome.ProcessedNow? ==> db' == db)
  {
    if e.order < |db.orders| { TransitionRules(db.orders[e.order].status, COMPLETED); }
  }

  /** A message handled again and again: `works[i]` is what its i-th handling would do to the tables. */
  function RunAll(db: Db, key: InboxKey, works: seq<Db -> Result<Db>>): Db
    decreases |works|
  {
    if works == [] then db else RunAll(RunOnce(db, key, works[0](db)).0, key, works[1..])
  }

  /** Work never touches the inbox; only runOnce does. */
  ghost predicate LeavesInbox(work: Db -> Result<Db>) {
    forall db :: work(db).Ok? ==> work(db).value.inbox == db.inbox
  }

  /** However often a message is handled, the tables end as its first successful work left them, recorded once;
      if its key was recorded before, or no work succeeds, they do not change. */
  lemma {:induction false} RedeliveriesCommitOnce(db: Db, key: InboxKey, works: seq<Db -> Result<Db>>)
    requires forall i :: 0 <= i < |works| ==> LeavesInbox(works[i])
    ensures key in db.inbox || (forall i :: 0 <= i < |works| ==> works[i](db).Err?) ==> RunAll(db, key, works) == db
    ensures forall k :: 0 <= k < |works| && key !in db.inbox && works[k](db).Ok? &&
                        (forall i :: 0 <= i < k ==> works[i](db).Err?) ==>
              RunAll(db, key, works) == works[k](db).value.(inbox := db.inbox + {key})
    decreases |works|
  {
    if works != [] {
      assert LeavesInbox(works[0]);
      var next := RunOnce(db, key, works[0](db)).0;
      RedeliveriesCommitOnce(next, key, works[1..]);
      forall k | 0 < k < |works| && key !in db.inbox && works[k](db).Ok? &&
                 (forall i :: 0 <= i < k ==> works[i](db).Err?)
        ensures RunAll(db, key, works) == works[k](db).value.(inbox := db.inbox + {key})
      {
        assert next == db && works[1..][k - 1] == works[k];
        assert forall i :: 0 <= i < k - 1 ==> works[1..][i] == works[i + 1];
      }
    }
  }

  /** A payment event handled again, at any later time and whatever the provider would say by then,
      leaves every table as the first handling left it. */
  lemma RedeliveredPaymentChangesNothing(db: Db, m: MessageId, e: Event, now: nat, says: PaymentResult,
                                         later: nat, saysLater: PaymentResult)
    requires AdvanceAlone(db, Some(m), e, now, says).1.ProcessedNow?
    ensures var db' := AdvanceAlone(db, Some(m), e, now, says).0;
      AdvanceAlone(db', Some(m), e, later, saysLater) == (db', Skipped)
  {
    var db' := AdvanceAlone(db, Some(m), e, now, says).0;
    var (ledger, result) := AuthorizeAlone(db.ledger, e.order, now, says);
    assert e.order in ledger && Decision(ledger[e.order]) == result;
    assert db'.ledger == ledger;
  }
}
