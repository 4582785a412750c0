/** Runs that show the limits of the saga's promises, and that its races really occur. */
module SagaWitnesses {
  import opened Common
  import opened OrderStateMachine
  import opened Stock
  import opened Tables
  import opened Saga
  import opened SagaInvariant
  import opened SagaTheorems

  lemma ReachableStep(s: State, step: Step)
    requires Reachable(s) && Enabled(s, step)
    ensures Reachable(Apply(s, step))
  {
    var run :| IsRun(run) && Last(run) == s;
    var run' := run + [Apply(s, step)];
    forall i: nat | i + 1 < |run'| ensures Follows(run', i) {
      if i == |run| - 1 {
        assert Enabled(run'[i], step) && run'[i + 1] == Apply(run'[i], step);
      } else {
        assert Follows(run, i);
      }
    }
    assert IsRun(run') && Last(run') == Apply(s, step);
  }

  const ONE: seq<Line> := [Line(0, 1)]

  /** A catalogue with a single unit of product 0. */
  function Start1(): State {
    State(Db([], map[0 := 1], [], {}, {}, map[]), Broker(multiset{}, multiset{}, multiset{}),
          map[], map[], map[], map[], 0, [], map[0 := 1], multiset{})
  }

  /** One order for that unit, just created; a cancel request may have read it already. */
  function Ordered(cancels: map<nat, Cancel>): State {
    Start1().(db := Db([Order(7, PENDING, false, ONE)], map[0 := 1], [Event(Created, 0, ONE)], {}, {}, map[]),
              cancels := cancels, audit := [Audit([], None, 0, 0, {})])
  }

  lemma StartIsReachable()
    ensures Reachable(Start1())
  {
    assert IsRun([Start1()]) && Last([Start1()]) == Start1();
  }

  lemma OrderIsReachable()
    ensures Reachable(Ordered(map[]))
  {
    StartIsReachable();
    ReachableStep(Start1(), Request(CreateStep(7, ONE)));
    assert DoCreate(Start1(), 7, ONE) == Ordered(map[]);
  }

  lemma CancelHasRead()
    ensures Reachable(Ordered(map[5 := CancelReading(0, false, ONE)]))
  {
    OrderIsReachable();
    ReachableStep(Ordered(map[]), Request(CancelReadStep(5, 0, 7)));
    assert DoCancelRead(Ordered(map[]), 5, 0, 7) == Ordered(map[5 := CancelReading(0, false, ONE)]);
  }

  /** Two copies of OrderCreated in flight: the first drain crashed after publishing it. */
  function TwoCopies(s: State, first: Pc, second: Pc): State {
    s.(handlers := map[0 := Handler(0, 0, first), 1 := Handler(0, 0, second)], drains := map[1 := {0}])
  }

  /** The same, with both copies still queued. */
  function TwoQueued(s: State): State {
    s.(broker := Broker(multiset{Copy(0, 0), Copy(0, 0)}, multiset{}, multiset{}), drains := map[1 := {0}])
  }

  lemma TwoQueuedAreReachable(c: map<nat, Cancel>)
    requires Reachable(Ordered(c))
    ensures Reachable(TwoQueued(Ordered(c)))
  {
    var s0 := Ordered(c);
    ReachableStep(s0, Relay(PublishStep(0, 0)));
    var s1 := DoPublish(s0, 0, 0);
    ReachableStep(s1, Relay(DrainCrashStep(0)));
    var s2 := s0.(broker := Broker(multiset{Copy(0, 0)}, multiset{}, multiset{}));
    assert s1.broker.work == multiset{Copy(0, 0)};
    assert Without(s1.drains, 0) == map[];
    assert s1.(drains := Without(s1.drains, 0)) == s2;
    ReachableStep(s2, Relay(PublishStep(1, 0)));
    assert {} + {0} == {0};
    assert DoPublish(s2, 1, 0) == TwoQueued(s0);
  }

  lemma TwoCopiesAreReachable(c: map<nat, Cancel>)
    requires Reachable(Ordered(c))
    ensures Reachable(TwoCopies(Ordered(c), Saga.Start, Saga.Start))
  {
    TwoQueuedAreReachable(c);
    var s0 := TwoQueued(Ordered(c));
    ReachableStep(s0, Delivery(DeliverStep(0, Copy(0, 0))));
    var s1 := DoDeliver(s0, 0, Copy(0, 0));
    assert s1.broker.work == multiset{Copy(0, 0)};
    ReachableStep(s1, Delivery(DeliverStep(1, Copy(0, 0))));
    assert DoDeliver(s1, 1, Copy(0, 0)) == TwoCopies(Ordered(c), Saga.Start, Saga.Start);
  }

  lemma BothRead(c: map<nat, Cancel>)
    requires Reachable(Ordered(c))
    ensures Reachable(TwoCopies(Ordered(c), InboxFree, InboxFree))
  {
    TwoCopiesAreReachable(c);
    var s0 := TwoCopies(Ordered(c), Saga.Start, Saga.Start);
    ReachableStep(s0, Delivery(CheckInboxStep(0)));
    var s1 := TwoCopies(Ordered(c), InboxFree, Saga.Start);
    assert DoCheckInbox(s0, 0) == s1;
    ReachableStep(s1, Delivery(CheckInboxStep(1)));
    assert DoCheckInbox(s1, 1) == TwoCopies(Ordered(c), InboxFree, InboxFree);
  }

  lemma OneTotal()
    ensures Total(ONE, 0) == 1 && Line(0, 1) in ONE
  {
    TotalSnoc([], Line(0, 1), 0);
    assert [] + [Line(0, 1)] == ONE;
  }

  /** Both deliveries passed the inbox check; the first found enough stock. */
  lemma BothPassedTheCheck(c: map<nat, Cancel>)
    requires Reachable(Ordered(c))
    ensures Reachable(TwoCopies(Ordered(c), StockJudged(false), InboxFree))
  {
    BothRead(c);
    OneTotal();
    var s := TwoCopies(Ordered(c), InboxFree, InboxFree);
    ReachableStep(s, Delivery(JudgeStockStep(0)));
    assert DoJudgeStock(s, 0) == TwoCopies(Ordered(c), StockJudged(false), InboxFree);
  }

  /** The first delivery has committed: the order is RESERVED and the unit is gone. */
  function Won(c: map<nat, Cancel>): State {
    Ordered(c).(db := Db([Order(7, RESERVED, false, ONE)], map[0 := 0], [Event(Created, 0, ONE)], {},
                         {(0, Inventory)}, map[]),
                audit := [Audit(ONE, None, 0, 0, {})],
                applied := multiset{(0, Inventory)})
  }

  lemma OrderedCommits(c: map<nat, Cancel>)
    ensures FinishRunOnce((0, Inventory), InventoryWork(Ordered(c).db, Event(Created, 0, ONE), false)) ==
            Committed(Won(c).db)
  {
    OneTotal();
    var db := Ordered(c).db;
    assert Stock.Reserved(map[0 := 1], ONE) == map[0 := 0];
    assert db.orders[0 := db.orders[0].(status := RESERVED)] == Won(c).db.orders;
  }

  lemma WinningCommit(c: map<nat, Cancel>)
    ensures var s := TwoCopies(Ordered(c), StockJudged(false), InboxFree);
      CanCommit(s, 0) && DoCommit(s, 0) == TwoCopies(Won(c), Handled, InboxFree)
  {
    OneTotal();
    OrderedCommits(c);
    var s := TwoCopies(Ordered(c), StockJudged(false), InboxFree);
    assert Work(s, 0) == InventoryWork(Ordered(c).db, Event(Created, 0, ONE), false);
  }

  lemma FirstDeliveryWins(c: map<nat, Cancel>)
    requires Reachable(Ordered(c))
    ensures Reachable(TwoCopies(Won(c), Handled, InboxFree))
  {
    BothPassedTheCheck(c);
    WinningCommit(c);
    ReachableStep(TwoCopies(Ordered(c), StockJudged(false), InboxFree), Delivery(CommitStep(0)));
  }

  /** The race is real: a second delivery can stand, past the inbox check, before work that the
      state machine allows (RESERVED to FAILED) although its message is already processed. */
  lemma LegalLoserExists()
    ensures exists s, h ::
      && Reachable(s) && CanCommit(s, h) && Processed(s.db, s.handlers[h].message)
      && |s.db.orders| == 1 && s.db.orders[0].status == RESERVED
      && Work(s, h).Ok? && |Work(s, h).value.orders| == 1 && Work(s, h).value.orders[0].status == FAILED
  {
    OrderIsReachable();
    FirstDeliveryWins(map[]);
    var s := TwoCopies(Won(map[]), Handled, InboxFree);
    OneTotal();
    ReachableStep(s, Delivery(JudgeStockStep(1)));
    var s' := TwoCopies(Won(map[]), Handled, StockJudged(true));
    assert DoJudgeStock(s, 1) == s';
    assert CanCommit(s', 1) && Work(s', 1).Ok?;
  }

  /** The leak is real: a cancel that read PENDING can claim the order once it is RESERVED,
      and then nobody is left to give its stock back. */
  lemma StaleCancelLeaks()
    ensures exists s, o: OrderId ::
      && Reachable(s) && o < |s.db.orders| == |s.audit| && s.db.orders[o].status == CANCELLED
      && s.audit[o].held != [] && s.cancels == map[] && s.audit[o].loss == Some(ReadPendingClaimedReserved)
  {
    CancelHasRead();
    var c: map<nat, Cancel> := map[5 := CancelReading(0, false, ONE)];
    FirstDeliveryWins(c);
    var s := TwoCopies(Won(c), Handled, InboxFree);
    ReachableStep(s, Request(CancelClaimStep(5)));
    var s' := DoCancelClaim(s, 5);
    assert s'.cancels == map[];
    assert 0 < |s'.db.orders|;
  }

  // ---------- an event that always fails ----------

  /** OrderCreated has been relayed; `broker` has its only copy unless a delivery in `handlers` does. */
  function Relayed(broker: Broker, handlers: map<nat, Handler>): State {
    Ordered(map[]).(db := Ordered(map[]).db.(published := {0}), broker := broker, handlers := handlers)
  }

  function InWork(attempts: nat): State {
    Relayed(Broker(multiset{Copy(0, attempts)}, multiset{}, multiset{}), map[])
  }

  function InWait(attempts: nat, handlers: map<nat, Handler>): State {
    Relayed(Broker(multiset{}, multiset{Copy(0, attempts)}, multiset{}), handlers)
  }

  function InDlq(attempts: nat): State {
    Relayed(Broker(multiset{}, multiset{}, multiset{Copy(0, attempts)}), map[])
  }

  function InHand(attempts: nat, pc: Pc): State {
    Relayed(Broker(multiset{}, multiset{}, multiset{}), map[0 := Handler(0, attempts, pc)])
  }

  lemma RelayedOnce()
    ensures Reachable(InWork(0))
  {
    OrderIsReachable();
    var s0 := Ordered(map[]);
    ReachableStep(s0, Relay(PublishStep(0, 0)));
    var s1 := DoPublish(s0, 0, 0);
    assert {} + {0} == {0};
    assert s1.broker.work == multiset{Copy(0, 0)} && s1.drains == map[0 := {0}];
    ReachableStep(s1, Relay(DrainCommitStep(0)));
    assert Without(s1.drains, 0) == map[];
    assert DoDrainCommit(s1, 0) == InWork(0);
  }

  /** A delivery whose first statement throws. */
  lemma Fails(attempts: nat)
    requires Reachable(InWork(attempts))
    ensures Reachable(InHand(attempts, Failing))
  {
    ReachableStep(InWork(attempts), Delivery(DeliverStep(0, Copy(0, attempts))));
    assert DoDeliver(InWork(attempts), 0, Copy(0, attempts)) == InHand(attempts, Saga.Start);
    ReachableStep(InHand(attempts, Saga.Start), Delivery(ThrowStep(0)));
    assert Goto(InHand(attempts, Saga.Start), 0, Failing) == InHand(attempts, Failing);
  }

  lemma Parks(attempts: nat)
    requires Reachable(InHand(attempts, Failing)) && attempts < MAX_RETRIES
    ensures Reachable(InWait(attempts + 1, map[]))
  {
    ReachableStep(InHand(attempts, Failing), Delivery(RetryStep(0)));
    var s := InWait(attempts + 1, map[0 := Handler(0, attempts, Resent)]);
    assert DoRetry(InHand(attempts, Failing), 0) == s;
    ReachableStep(s, Delivery(AckStep(0)));
    assert Without(s.handlers, 0) == map[];
    assert s.(handlers := Without(s.handlers, 0)) == InWait(attempts + 1, map[]);
  }

  lemma Expires(attempts: nat)
    requires Reachable(InWait(attempts, map[]))
    ensures Reachable(InWork(attempts))
  {
    ReachableStep(InWait(attempts, map[]), Delivery(ExpireStep(Copy(0, attempts))));
    assert DoExpire(InWait(attempts, map[]), Copy(0, attempts)) == InWork(attempts);
  }

  lemma {:induction false} RetriedTimes(attempts: nat)
    requires attempts <= MAX_RETRIES
    ensures Reachable(InWork(attempts))
  {
    if attempts == 0 {
      RelayedOnce();
    } else {
      RetriedTimes(attempts - 1);
      Fails(attempts - 1);
      Parks(attempts - 1);
      Expires(attempts);
    }
  }

  /** Not losing an event is no more than that: a PENDING order's event whose handling always throws rests in the
      dead-letter queue, unprocessed, with nothing else in flight. */
  lemma EventCanRestInDlq()
    ensures exists s: State ::
      && Reachable(s) && |s.db.orders| == 1 && s.db.orders[0].status == PENDING && OnItsWay(s, 0)
      && s.broker == Broker(multiset{}, multiset{}, multiset{Copy(0, MAX_RETRIES)}) && s.handlers == map[]
  {
    RetriedTimes(MAX_RETRIES);
    Fails(MAX_RETRIES);
    var s := InHand(MAX_RETRIES, Failing);
    ReachableStep(s, Delivery(RetryStep(0)));
    assert Without(s.handlers, 0) == map[];
    assert DoRetry(s, 0) == InDlq(MAX_RETRIES);
    assert InBag(InDlq(MAX_RETRIES).broker.dlq, Copy(0, MAX_RETRIES));
  }
}
