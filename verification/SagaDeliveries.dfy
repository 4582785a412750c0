/** Every step of a delivery, and of the payment gateway inside one, keeps the invariant. */
module SagaDeliveries {
  import opened Common
  import opened OrderStateMachine
  import opened Stock
  import opened Tables
  import opened Saga
  import opened SagaInvariant
  import opened SagaTables
  import opened SagaSteps

  // ---------- moving a delivery along ----------

  /** Delivery `h` moved from one program point to another and still carries its copy. */
  lemma StillCarried(s: State, s': State, h: nat)
    requires h in s.handlers && h in s'.handlers && s'.handlers[h].message == s.handlers[h].message
    requires !s'.handlers[h].pc.Resent? && OthersSame(s, s', h)
    ensures forall i, m :: Carries(s, i, m) ==> Carries(s', i, m)
  {
    forall i, m | Carries(s, i, m) ensures Carries(s', i, m) {
      assert i != h ==> i in s'.handlers && s'.handlers[i] == s.handlers[i];
    }
  }

  lemma StillThere(s: State, s': State, h: nat)
    requires NothingDropped(s) && s'.broker == s.broker && s'.drains == s.drains
    requires Evolves(s.db, s'.db) && s'.db.published == s.db.published
    requires h in s.handlers && h in s'.handlers && s'.handlers[h].message == s.handlers[h].message
    requires !s'.handlers[h].pc.Resent? && OthersSame(s, s', h)
    ensures NothingDropped(s')
  {
    StillCarried(s, s', h);
    forall m: MessageId | NotDropped(s, m) ensures NotDropped(s', m) {
      NotDroppedFrame(s, s', m);
    }
    DropFrame(s, s');
  }

  lemma GotoKeeps(s: State, h: nat, pc: Pc)
    requires Inv(s) && h in s.handlers && !pc.Charging? && !pc.Resent?
    requires HandlerOk(Goto(s, h, pc), h)
    ensures Inv(Goto(s, h, pc))
  {
    var s' := Goto(s, h, pc);
    assert OthersSame(s, s', h);
    HandlersFrame(s, s', h);
    StillThere(s, s', h);
    ChargesShrink(s, s', h);
    MessageStep(s, s');
  }

  lemma CheckInboxKeeps(s: State, h: nat)
    requires Inv(s) && CanCheckInbox(s, h)
    ensures Inv(DoCheckInbox(s, h))
  {
    assert HandlerOk(s, h);
    GotoKeeps(s, h, DoCheckInbox(s, h).handlers[h].pc);
  }

  lemma JudgeStockKeeps(s: State, h: nat)
    requires Inv(s) && CanJudgeStock(s, h)
    ensures Inv(DoJudgeStock(s, h))
  {
    GotoKeeps(s, h, DoJudgeStock(s, h).handlers[h].pc);
  }

  /** Whatever a handler was doing when it threw, the invariant holds and its copy is still there. */
  lemma ThrowKeeps(s: State, h: nat)
    requires Inv(s) && CanThrow(s, h)
    ensures Inv(Goto(s, h, Failing))
  {
    assert HandlerOk(s, h);
    GotoKeeps(s, h, Failing);
  }

  // ---------- copies entering and leaving queues ----------

  lemma DeliverKeeps(s: State, h: nat, c: Copy)
    requires Inv(s) && h !in s.handlers && c in s.broker.work
    ensures Inv(DoDeliver(s, h, c))
  {
    var s' := DoDeliver(s, h, c);
    assert OthersSame(s, s', h) && Carries(s', h, c.message);
    forall m: MessageId | NotDropped(s, m) ensures NotDropped(s', m) {
      if m != c.message && InBroker(s, m) {
        if Queued(s.broker.work, m) { QueuedShrinks(s.broker.work, c, m); }
        if i :| Carries(s, i, m) { assert Carries(s', i, m); }
      }
    }
    DropFrame(s, s');
    HandlersFrame(s, s', h);
    ChargesShrink(s, s', h);
    MessageStep(s, s');
  }

  /** Delivery `h` ends; its copy went back to a queue, or its message is processed or resent. */
  lemma EndsKeeps(s: State, s': State, h: nat, c: Copy)
    requires Inv(s) && MessageFrame(s, s') && s'.drains == s.drains
    requires h in s.handlers && s'.handlers == Without(s.handlers, h) && c.message == s.handlers[h].message
    requires s'.broker == s.broker || s'.broker == s.broker.(work := s.broker.work + multiset{c}) ||
             s'.broker == s.broker.(dlq := s.broker.dlq + multiset{c})
    requires s'.broker != s.broker || s.handlers[h].pc.Resent? ||
             (c.message < |s.db.outbox| && Processed(s.db, c.message))
    ensures Inv(s')
  {
    assert OthersSame(s, s', h) && HandlerOk(s, h);
    forall m: MessageId | NotDropped(s, m) ensures NotDropped(s', m) {
      if !Processed(s.db, m) {
        QueuedGrows(s.broker.work, c, m);
        QueuedGrows(s.broker.dlq, c, m);
        if i :| Carries(s, i, m) { assert i != h ==> Carries(s', i, m); }
      }
    }
    DropFrame(s, s');
    HandlersFrame(s, s', h);
    ChargesShrink(s, s', h);
    MessageStep(s, s');
  }

  lemma CrashKeeps(s: State, h: nat)
    requires Inv(s) && h in s.handlers
    ensures Inv(DoCrash(s, h))
  {
    assert HandlerOk(s, h);
    EndsKeeps(s, DoCrash(s, h), h, Copy(s.handlers[h].message, s.handlers[h].attempts));
  }

  lemma AckKeeps(s: State, h: nat)
    requires Inv(s) && h in s.handlers && (s.handlers[h].pc.Handled? || s.handlers[h].pc.Resent?)
    ensures Inv(s.(handlers := Without(s.handlers, h)))
  {
    assert HandlerOk(s, h);
    EndsKeeps(s, s.(handlers := Without(s.handlers, h)), h, Copy(s.handlers[h].message, s.handlers[h].attempts));
  }

  lemma ParkKeeps(s: State, h: nat)
    requires Inv(s) && h in s.handlers && s.handlers[h].pc.Failing? && s.handlers[h].attempts < MAX_RETRIES
    ensures Inv(DoRetry(s, h))
  {
    var s' := DoRetry(s, h);
    var m, c := s.handlers[h].message, Copy(s.handlers[h].message, s.handlers[h].attempts + 1);
    assert OthersSame(s, s', h) && HandlerOk(s, h);
    QueuedGrows(s.broker.wait, c, m);
    forall n: MessageId | NotDropped(s, n) ensures NotDropped(s', n) {
      if n != m && InBroker(s, n) {
        assert forall i :: Carries(s, i, n) ==> Carries(s', i, n);
        InBrokerGrows(s, s', n, c);
      }
    }
    DropFrame(s, s');
    HandlersFrame(s, s', h);
    ChargesShrink(s, s', h);
    MessageStep(s, s');
  }

  lemma RetryKeeps(s: State, h: nat)
    requires Inv(s) && h in s.handlers && s.handlers[h].pc.Failing?
    ensures Inv(DoRetry(s, h))
  {
    if s.handlers[h].attempts < MAX_RETRIES {
      ParkKeeps(s, h);
    } else {
      EndsKeeps(s, DoRetry(s, h), h, Copy(s.handlers[h].message, s.handlers[h].attempts));
    }
  }

  lemma ExpireKeeps(s: State, c: Copy)
    requires Inv(s) && c in s.broker.wait
    ensures Inv(DoExpire(s, c))
  {
    var s' := DoExpire(s, c);
    forall m: MessageId | NotDropped(s, m) ensures NotDropped(s', m) {
      if InBroker(s, m) {
        QueuedGrows(s.broker.work, c, m);
        if Queued(s.broker.wait, m) && m != c.message { QueuedShrinks(s.broker.wait, c, m); }
        if i :| Carries(s, i, m) { assert Carries(s', i, m); }
      }
    }
    DropFrame(s, s');
    SameHandlersOk(s, s');
    SameHandlersCharges(s, s');
    MessageStep(s, s');
  }

  // ---------- committing the work of an event ----------

  ghost predicate Commits(s: State, h: nat)
    requires CanCommit(s, h)
  {
    FinishRunOnce(InboxKeyOf(s.db, s.handlers[h].message), Work(s, h)).Committed?
  }

  lemma WorkShape(s: State, h: nat)
    requires CanCommit(s, h) && Work(s, h).Ok?
    ensures var db := Work(s, h).value;
      db.inbox == s.db.inbox && db.ledger == s.db.ledger && db.published == s.db.published && s.db.outbox <= db.outbox
  {
  }

  /** What a committing transaction does, whichever consumer runs it. */
  lemma CommitShape(s: State, h: nat)
    requires CanCommit(s, h) && Commits(s, h) && HandlerOk(s, h)
    ensures var s' := DoCommit(s, h); var key := InboxKeyOf(s.db, s.handlers[h].message);
      && s'.handlers == s.handlers[h := s.handlers[h].(pc := Handled)]
      && s'.broker == s.broker && s'.drains == s.drains && s'.cancels == s.cancels
      && s'.provider == s.provider && s'.supplied == s.supplied
      && s'.applied == s.applied + multiset{key} && key !in s.db.inbox
      && s'.db.inbox == s.db.inbox + {key} && s'.db.ledger == s.db.ledger && s'.db.published == s.db.published
      && s.db.outbox <= s'.db.outbox
  {
    WorkShape(s, h);
  }

  /** Only the event's own order moves, along the state machine and not to CANCELLED. */
  lemma CommitMoves(s: State, h: nat)
    requires CanCommit(s, h) && Commits(s, h) && HandlerOk(s, h)
    ensures var s' := DoCommit(s, h);
      && |s'.db.orders| == |s.db.orders| && |s'.audit| == |s.audit|
      && (forall o :: 0 <= o < |s.db.orders| ==> CancelUnaffected(s, s', o) || s.db.orders[o].status == CANCELLED)
      && (forall o :: 0 <= o < |s'.audit| ==> SamePayments(s.audit, s'.audit, o))
      && (forall o :: 0 <= o < |s.db.orders| ==> s.db.orders[o].status == CANCELLED ==>
            s'.db.orders[o] == s.db.orders[o] && s'.audit[o] == s.audit[o])
  {
    if EventOf(s, h).kind in {Created, InventoryReserved, PaymentProcessed} {
      CommitDrives(s, h);
    }
  }

  lemma CommitEvolves(s: State, h: nat)
    requires CanCommit(s, h) && Commits(s, h) && HandlerOk(s, h)
    ensures Evolves(s.db, DoCommit(s, h).db)
    ensures |DoCommit(s, h).audit| == |s.audit|
    ensures forall o :: 0 <= o < |s.db.orders| ==> CancelUnaffected(s, DoCommit(s, h), o)
    ensures forall o :: 0 <= o < |s.audit| ==> SamePayments(s.audit, DoCommit(s, h).audit, o)
  {
    var s' := DoCommit(s, h);
    CommitShape(s, h);
    CommitMoves(s, h);
    forall o | 0 <= o < |s.db.orders| ensures CancelUnaffected(s, s', o) && OrderEvolves(s.db, s'.db, o) {
      assert CancelUnaffected(s, s', o) || s.db.orders[o].status == CANCELLED;
    }
  }

  /** A reservation moves exactly its totals from the shelf to an order that held nothing. */
  lemma ReserveMovesStock(stock: Shelf, supplied: Shelf, audit: seq<Audit>, o: OrderId, a: Audit)
    requires StockOk(stock, supplied, audit) && o < |audit| && audit[o].held == [] && CanReserve(stock, a.held)
    ensures StockOk(Stock.Reserved(stock, a.held), supplied, audit[o := a])
  {
    ReservedStaysNonNegative(stock, a.held);
    forall p | p in stock ensures Stock.Reserved(stock, a.held)[p] + HeldTotal(audit[o := a], p) == supplied[p] {
      HeldTotalUpdate(audit, o, a, p);
    }
  }

  lemma CommitKeepsStock(s: State, h: nat)
    requires TablesOk(s.db, s.audit) && StockOk(s.db.stock, s.supplied, s.audit)
    requires CanCommit(s, h) && Commits(s, h) && HandlerOk(s, h)
    ensures StockOk(DoCommit(s, h).db.stock, s.supplied, DoCommit(s, h).audit)
  {
    var s' := DoCommit(s, h);
    var m := s.handlers[h].message;
    var e := s.db.outbox[m];
    assert EventOk(s.db, m) && HoldsWhatItShould(s.db, s.audit, e.order);
    if e.kind.Created? && !s.handlers[h].pc.short {
      ReserveMovesStock(s.db.stock, s.supplied, s.audit, e.order, s'.audit[e.order]);
    }
  }

  lemma CommitKeepsRest(s: State, h: nat)
    requires Inv(s) && CanCommit(s, h) && Commits(s, h)
    ensures var s' := DoCommit(s, h);
      CancelsOk(s') && PaymentsOk(s') && ChargesOk(s') && BrokerOk(s') && NothingDropped(s') && AppliedOk(s')
  {
    var s' := DoCommit(s, h);
    assert HandlerOk(s, h);
    CommitShape(s, h);
    CommitEvolves(s, h);
    assert OthersSame(s, s', h) && HandlerOk(s', h);
    CancelsFrame(s, s');
    PaymentsFrame(s, s');
    HandlersFrame(s, s', h);
    ChargesShrink(s, s', h);
    StillThere(s, s', h);
  }

  /** A transaction that does not commit leaves nothing behind but where its delivery stands. */
  lemma RollbackIsGoto(s: State, h: nat)
    requires CanCommit(s, h) && !Commits(s, h)
    ensures DoCommit(s, h) == Goto(s, h, if Work(s, h).Ok? then Handled else Failing)
    ensures Work(s, h).Ok? ==> Processed(s.db, s.handlers[h].message)
  {
    if Work(s, h).Ok? { WorkShape(s, h); }
  }

  lemma CommitKeeps(s: State, h: nat)
    requires Inv(s) && CanCommit(s, h)
    ensures Inv(DoCommit(s, h))
  {
    assert HandlerOk(s, h);
    if Commits(s, h) {
      CommitShape(s, h);
      CommitKeepsTables(s, h);
      CommitKeepsStock(s, h);
      CommitKeepsRest(s, h);
    } else {
      RollbackIsGoto(s, h);
      GotoKeeps(s, h, DoCommit(s, h).handlers[h].pc);
    }
  }

  lemma DeliveryKeeps(s: State, step: DeliveryStep)
    requires Inv(s) && CanDelivery(s, step)
    ensures Inv(DoDelivery(s, step))
  {
    match step
    case DeliverStep(h, c) => DeliverKeeps(s, h, c);
    case CrashStep(h) => CrashKeeps(s, h);
    case CheckInboxStep(h) => CheckInboxKeeps(s, h);
    case JudgeStockStep(h) => JudgeStockKeeps(s, h);
    case CommitStep(h) => CommitKeeps(s, h);
    case ThrowStep(h) => ThrowKeeps(s, h);
    case RetryStep(h) => RetryKeeps(s, h);
    case AckStep(h) => AckKeeps(s, h);
    case ExpireStep(c) => ExpireKeeps(s, c);
  }

  // ---------- the payment gateway ----------

  /** A step of `authorize`: one delivery moves, the ledger may gain a row or a decision. */
  ghost predicate GatewayFrame(s: State, s': State, h: nat) {
    && s'.broker == s.broker && s'.drains == s.drains && s'.cancels == s.cancels
    && s'.supplied == s.supplied && s'.applied == s.applied
    && s'.db == s.db.(ledger := s'.db.ledger) && Evolves(s.db, s'.db)
    && h in s.handlers && h in s'.handlers
    && s'.handlers == s.handlers[h := s.handlers[h].(pc := s'.handlers[h].pc)]
    && !s'.handlers[h].pc.Resent?
    && |s'.audit| == |s.audit|
    && (forall o :: 0 <= o < |s.audit| ==> SameCancelHistory(s.audit, s'.audit, o))
    && (forall o | o in s.provider :: o in s'.provider && s'.provider[o] == s.provider[o])
  }

  lemma GatewayKeepsTables(s: State, s': State, h: nat)
    requires TablesOk(s.db, s.audit) && StockOk(s.db.stock, s.supplied, s.audit) && CancelsOk(s)
    requires GatewayFrame(s, s', h)
    requires forall o | o in s'.db.ledger :: o < |s.db.orders| && s.db.orders[o].paymentInitiated
    ensures TablesOk(s'.db, s'.audit) && StockOk(s'.db.stock, s'.supplied, s'.audit) && CancelsOk(s')
  {
    forall o | 0 <= o < |s.audit| ensures s'.audit[o].held == s.audit[o].held {
      assert SameCancelHistory(s.audit, s'.audit, o);
    }
    SideEntriesKeepTables(s.db, s.audit, s'.db, s'.audit);
    SameHeldKeepsStock(s.db.stock, s.supplied, s.audit, s'.audit);
    CancelsSame(s, s');
  }

  lemma GatewayKeepsBroker(s: State, s': State, h: nat)
    requires BrokerOk(s) && NothingDropped(s) && GatewayFrame(s, s', h) && HandlerOk(s', h)
    ensures BrokerOk(s') && NothingDropped(s')
  {
    assert OthersSame(s, s', h);
    HandlersFrame(s, s', h);
    StillThere(s, s', h);
  }

  lemma GatewayStepKeeps(s: State, s': State, h: nat)
    requires Inv(s) && GatewayFrame(s, s', h) && HandlerOk(s', h)
    requires forall o | o in s'.db.ledger :: o < |s.db.orders| && s.db.orders[o].paymentInitiated
    requires PaymentsOk(s') && ChargesOk(s')
    ensures Inv(s')
  {
    GatewayKeepsTables(s, s', h);
    GatewayKeepsBroker(s, s', h);
  }

  /** Orders other than `o` keep their accounts. */
  ghost predicate AboutOrder(s: State, s': State, o: OrderId) {
    && |s'.audit| == |s.audit|
    && (forall q :: q != o ==> (q in s'.db.ledger <==> q in s.db.ledger) && (q in s'.provider <==> q in s.provider))
    && (forall q :: q != o && q in s.db.ledger && q in s'.db.ledger ==> s'.db.ledger[q] == s.db.ledger[q])
    && (forall q :: q != o && q in s.provider && q in s'.provider ==> s'.provider[q] == s.provider[q])
    && (forall q :: 0 <= q < |s.audit| && q != o ==> s'.audit[q] == s.audit[q])
  }

  lemma OtherOrdersAgree(s: State, s': State, o: OrderId)
    requires PaymentsOk(s) && AboutOrder(s, s', o)
    requires LedgerAgrees(s', o) && (o in s'.provider ==> o in s'.db.ledger)
    requires o < |s'.audit| && AnswersAgree(s', o)
    ensures PaymentsOk(s')
  {
    forall q ensures LedgerAgrees(s', q) {
      if q != o { assert LedgerAgrees(s, q); }
    }
    forall q | 0 <= q < |s'.audit| ensures AnswersAgree(s', q) {
      if q != o { assert AnswersAgree(s, q); }
    }
  }

  lemma OtherOrdersCharges(s: State, s': State, h: nat, o: OrderId)
    requires ChargesOk(s) && AboutOrder(s, s', o) && s'.db.outbox == s.db.outbox
    requires h in s.handlers && s.handlers[h].message < |s.db.outbox| && EventOf(s, h).order == o
    requires h in s'.handlers && s'.handlers == s.handlers[h := s.handlers[h].(pc := s'.handlers[h].pc)]
    requires o < |s'.audit| && ChargeOk(s', o)
    ensures ChargesOk(s')
  {
    forall q | 0 <= q < |s'.audit| ensures ChargeOk(s', q) {
      if q != o {
        assert ChargeOk(s, q) && ChargingFor(s', q) == ChargingFor(s, q);
      }
    }
  }

  /** A gateway step about order `o` keeps the invariant if it keeps the accounts of `o`. */
  lemma GatewayStepAbout(s: State, s': State, h: nat)
    requires Inv(s) && AtPayment(s, h) && GatewayFrame(s, s', h) && HandlerOk(s', h)
    requires var o := EventOf(s, h).order;
      AboutOrder(s, s', o) && LedgerAgrees(s', o) && o in s'.db.ledger && AnswersAgree(s', o) && ChargeOk(s', o)
    ensures Inv(s')
  {
    var o := EventOf(s, h).order;
    assert EventOk(s.db, s.handlers[h].message);
    LedgerKeysPaid(s.db, s.audit);
    OtherOrdersAgree(s, s', o);
    OtherOrdersCharges(s, s', h, o);
    GatewayStepKeeps(s, s', h);
  }

  lemma ClaimLedgerFrame(s: State, h: nat)
    requires AtPayment(s, h) && EventOf(s, h).order !in s.db.ledger
    ensures GatewayFrame(s, DoClaimLedger(s, h), h) && AboutOrder(s, DoClaimLedger(s, h), EventOf(s, h).order)
  {
  }

  lemma NewClaimIsPaidFor(s: State, h: nat)
    requires BrokerOk(s) && AtPayment(s, h) && s.handlers[h].pc.Start?
    requires EventOf(s, h).order !in s.db.ledger && ChargeOk(s, EventOf(s, h).order)
    ensures ChargeOk(DoClaimLedger(s, h), EventOf(s, h).order)
  {
    var o := EventOf(s, h).order;
    NobodyCharges(s, o);
    assert ChargingFor(DoClaimLedger(s, h), o) == {h};
  }

  lemma ClaimLedgerKeeps(s: State, h: nat)
    requires Inv(s) && AtPayment(s, h) && s.handlers[h].pc.Start?
    ensures Inv(DoClaimLedger(s, h))
  {
    var o := EventOf(s, h).order;
    if o in s.db.ledger {
      GotoKeeps(s, h, ClaimLost);
    } else {
      ClaimLedgerFrame(s, h);
      assert ChargeOk(s, o) && AnswersAgree(s, o);
      NewClaimIsPaidFor(s, h);
      GatewayStepAbout(s, DoClaimLedger(s, h), h);
    }
  }

  /** `authorize` returns the provider's result, recording it if nothing was recorded yet. */
  ghost predicate Answers(s: State, s': State, h: nat, result: PaymentResult)
    requires AtPayment(s, h)
  {
    var o := EventOf(s, h).order;
    && o in s.db.ledger && o in s'.db.ledger && Decision(s'.db.ledger[o]) == Some(result)
    && s' == Answer(s, h, result).(db := s.db.(ledger := s.db.ledger[o := s'.db.ledger[o]]))
    && (Decision(s.db.ledger[o]).Some? ==> s'.db.ledger[o] == s.db.ledger[o])
  }

  lemma AnswerFrame(s: State, s': State, h: nat, result: PaymentResult)
    requires AtPayment(s, h) && Answers(s, s', h, result)
    ensures GatewayFrame(s, s', h) && AboutOrder(s, s', EventOf(s, h).order)
  {
  }

  lemma AnswerKeeps(s: State, s': State, h: nat, result: PaymentResult)
    requires Inv(s) && AtPayment(s, h) && !s.handlers[h].pc.Charging? && Answers(s, s', h, result)
    requires EventOf(s, h).order in s.provider && s.provider[EventOf(s, h).order] == result
    ensures Inv(s')
  {
    var o := EventOf(s, h).order;
    AnswerFrame(s, s', h, result);
    assert ChargeOk(s, o) && AnswersAgree(s, o);
    assert ChargingFor(s', o) == ChargingFor(s, o);
    GatewayStepAbout(s, s', h);
  }

  lemma ReadLedgerKeeps(s: State, h: nat)
    requires Inv(s) && AtPayment(s, h) && s.handlers[h].pc.ClaimLost?
    ensures Inv(DoReadLedger(s, h))
  {
    var o := EventOf(s, h).order;
    assert HandlerOk(s, h) && LedgerAgrees(s, o);
    if Decision(s.db.ledger[o]).Some? {
      assert s.db.ledger == s.db.ledger[o := s.db.ledger[o]];
      AnswerKeeps(s, DoReadLedger(s, h), h, Decision(s.db.ledger[o]).value);
    } else {
      GotoKeeps(s, h, Undecided);
    }
  }

  lemma RecordKeeps(s: State, h: nat)
    requires Inv(s) && AtPayment(s, h) && s.handlers[h].pc.Charged?
    ensures Inv(DoRecord(s, h))
  {
    var o := EventOf(s, h).order;
    assert HandlerOk(s, h) && LedgerAgrees(s, o);
    assert s.db.ledger == s.db.ledger[o := s.db.ledger[o]];
    AnswerKeeps(s, DoRecord(s, h), h, s.handlers[h].pc.result);
  }

  lemma TakeoverFrame(s: State, h: nat)
    requires AtPayment(s, h) && EventOf(s, h).order in s.db.ledger && IsStale(s.db.ledger[EventOf(s, h).order], s.now)
    ensures GatewayFrame(s, DoJudgeStale(s, h), h) && AboutOrder(s, DoJudgeStale(s, h), EventOf(s, h).order)
  {
  }

  lemma TakeoverIsPaidFor(s: State, h: nat)
    requires AtPayment(s, h) && s.handlers[h].pc.Undecided? && ChargeOk(s, EventOf(s, h).order)
    requires EventOf(s, h).order in s.db.ledger && IsStale(s.db.ledger[EventOf(s, h).order], s.now)
    ensures ChargeOk(DoJudgeStale(s, h), EventOf(s, h).order)
  {
    var o := EventOf(s, h).order;
    assert ChargingFor(DoJudgeStale(s, h), o) == ChargingFor(s, o) + {h};
  }

  lemma TakeoverKeeps(s: State, h: nat)
    requires Inv(s) && AtPayment(s, h) && s.handlers[h].pc.Undecided?
    requires EventOf(s, h).order in s.db.ledger && IsStale(s.db.ledger[EventOf(s, h).order], s.now)
    ensures Inv(DoJudgeStale(s, h))
  {
    var o := EventOf(s, h).order;
    TakeoverFrame(s, h);
    assert ChargeOk(s, o) && AnswersAgree(s, o) && LedgerAgrees(s, o);
    TakeoverIsPaidFor(s, h);
    GatewayStepAbout(s, DoJudgeStale(s, h), h);
  }

  lemma JudgeStaleKeeps(s: State, h: nat)
    requires Inv(s) && AtPayment(s, h) && s.handlers[h].pc.Undecided?
    ensures Inv(DoJudgeStale(s, h))
  {
    assert HandlerOk(s, h);
    if IsStale(s.db.ledger[EventOf(s, h).order], s.now) {
      TakeoverKeeps(s, h);
    } else {
      GotoKeeps(s, h, Failing);
    }
  }

  lemma ChargeFrame(s: State, h: nat, result: PaymentResult)
    requires AtPayment(s, h) && ProviderMaySay(s, EventOf(s, h).order, result)
    ensures GatewayFrame(s, DoCharge(s, h, result), h) && AboutOrder(s, DoCharge(s, h, result), EventOf(s, h).order)
  {
  }

  lemma ChargeKeeps(s: State, h: nat, result: PaymentResult)
    requires Inv(s) && AtPayment(s, h) && s.handlers[h].pc.Charging?
    requires ProviderMaySay(s, EventOf(s, h).order, result)
    ensures Inv(DoCharge(s, h, result))
  {
    var s' := DoCharge(s, h, result);
    var o := EventOf(s, h).order;
    ChargeFrame(s, h, result);
    assert HandlerOk(s, h) && ChargeOk(s, o) && AnswersAgree(s, o) && LedgerAgrees(s, o);
    assert h in ChargingFor(s, o);
    assert ChargingFor(s', o) == ChargingFor(s, o) - {h};
    GatewayStepAbout(s, s', h);
  }

  lemma ChargeFailsFrame(s: State, h: nat)
    requires AtPayment(s, h)
    ensures GatewayFrame(s, DoChargeFails(s, h), h) && AboutOrder(s, DoChargeFails(s, h), EventOf(s, h).order)
  {
  }

  lemma ChargeFailsKeeps(s: State, h: nat)
    requires Inv(s) && AtPayment(s, h) && s.handlers[h].pc.Charging?
    ensures Inv(DoChargeFails(s, h))
  {
    var s' := DoChargeFails(s, h);
    var o := EventOf(s, h).order;
    ChargeFailsFrame(s, h);
    assert HandlerOk(s, h) && ChargeOk(s, o) && AnswersAgree(s, o) && LedgerAgrees(s, o);
    assert h in ChargingFor(s, o);
    assert ChargingFor(s', o) == ChargingFor(s, o) - {h};
    GatewayStepAbout(s, s', h);
  }

  lemma GatewayKeeps(s: State, step: GatewayStep)
    requires Inv(s) && CanGateway(s, step)
    ensures Inv(DoGateway(s, step))
  {
    match step
    case ClaimLedgerStep(h) => ClaimLedgerKeeps(s, h);
    case ReadLedgerStep(h) => ReadLedgerKeeps(s, h);
    case JudgeStaleStep(h) => JudgeStaleKeeps(s, h);
    case ChargeStep(h, result) => ChargeKeeps(s, h, result);
    case ChargeFailsStep(h) => ChargeFailsKeeps(s, h);
    case RecordStep(h) => RecordKeeps(s, h);
  }
}
