/**
 Requests and deliveries that nobody disturbs. Running the saga's steps of one of them in sequence, each of
 which is enabled after the one before, comes to exactly what the imperative services are proved to do.
 */
module SagaAlone {
  import opened Common
  import opened OrderStateMachine
  import opened Stock
  import opened Tables
  import opened Saga
  import Database

  // ---------- authorize ----------

  function ChargeSteps(s: State, h: nat, says: PaymentResult): State
    requires AtPayment(s, h) && s.handlers[h].pc.Charging? && ProviderMaySay(s, EventOf(s, h).order, says)
  {
    DoGateway(DoGateway(s, ChargeStep(h, says)), RecordStep(h))
  }

  /** A delivery that is about to authorise, with the provider's answer if it is asked. */
  predicate MayAuthorize(s: State, h: nat, says: PaymentResult) {
    AtPayment(s, h) && s.handlers[h].pc.Start? && ProviderMaySay(s, EventOf(s, h).order, says)
  }

  /** Claim; then charge and record, or read the row; then return its decision, or judge its age and charge. */
  function AuthorizeSteps(s: State, h: nat, says: PaymentResult): State
    requires MayAuthorize(s, h, says)
  {
    var claimed := DoGateway(s, ClaimLedgerStep(h));
    if claimed.handlers[h].pc.Charging? then ChargeSteps(claimed, h, says)
    else
      var read := DoGateway(claimed, ReadLedgerStep(h));
      if read.handlers[h].pc.Answered? then read else JudgeSteps(read, h, says)
  }

  function JudgeSteps(s: State, h: nat, says: PaymentResult): State
    requires AtPayment(s, h) && s.handlers[h].pc.Undecided? && ProviderMaySay(s, EventOf(s, h).order, says)
  {
    var judged := DoGateway(s, JudgeStaleStep(h));
    if judged.handlers[h].pc.Charging? then ChargeSteps(judged, h, says) else judged
  }

  /** The delivery is where `result` takes it, and of the tables only the ledger may have changed. */
  predicate AuthorizedTo(s: State, s': State, h: nat, ledger: map<OrderId, Authorization>,
                         result: Option<PaymentResult>)
    requires h in s.handlers
  {
    && s'.db == s.db.(ledger := ledger)
    && s'.handlers == Goto(s, h, match result case Some(r) => Answered(r) case None => Failing).handlers
    && |s'.audit| == |s.audit| && s'.broker == s.broker
  }

  lemma ChargeStepsAlone(s: State, h: nat, says: PaymentResult)
    requires AtPayment(s, h) && s.handlers[h].pc.Charging? && ProviderMaySay(s, EventOf(s, h).order, says)
    requires EventOf(s, h).order in s.db.ledger && s.db.ledger[EventOf(s, h).order].authorized.None?
    ensures var o := EventOf(s, h).order;
      AuthorizedTo(s, ChargeSteps(s, h, says), h, s.db.ledger[o := Decided(s.db.ledger[o], says)], Some(says))
  {
  }

  lemma FirstAuthorization(s: State, h: nat, says: PaymentResult)
    requires MayAuthorize(s, h, says) && EventOf(s, h).order !in s.db.ledger
    ensures var (ledger, result) := Database.AuthorizeAlone(s.db.ledger, EventOf(s, h).order, s.now, says);
      AuthorizedTo(s, AuthorizeSteps(s, h, says), h, ledger, result)
  {
    ChargeStepsAlone(DoGateway(s, ClaimLedgerStep(h)), h, says);
  }

  lemma DecidedAuthorization(s: State, h: nat, says: PaymentResult)
    requires MayAuthorize(s, h, says) && EventOf(s, h).order in s.db.ledger
    requires Decision(s.db.ledger[EventOf(s, h).order]).Some?
    ensures var (ledger, result) := Database.AuthorizeAlone(s.db.ledger, EventOf(s, h).order, s.now, says);
      AuthorizedTo(s, AuthorizeSteps(s, h, says), h, ledger, result)
  {
  }

  lemma ReadsUndecided(s: State, h: nat)
    requires AtPayment(s, h) && s.handlers[h].pc.Start? && EventOf(s, h).order in s.db.ledger
    requires Decision(s.db.ledger[EventOf(s, h).order]).None?
    ensures DoGateway(DoGateway(s, ClaimLedgerStep(h)), ReadLedgerStep(h)) == Goto(s, h, Undecided)
  {
  }

  lemma UndecidedAuthorization(s: State, h: nat, says: PaymentResult)
    requires MayAuthorize(s, h, says) && EventOf(s, h).order in s.db.ledger
    requires Decision(s.db.ledger[EventOf(s, h).order]).None?
    ensures var (ledger, result) := Database.AuthorizeAlone(s.db.ledger, EventOf(s, h).order, s.now, says);
      AuthorizedTo(s, AuthorizeSteps(s, h, says), h, ledger, result)
  {
    var read := DoGateway(DoGateway(s, ClaimLedgerStep(h)), ReadLedgerStep(h));
    ReadsUndecided(s, h);
    JudgeStepsAlone(read, h, says);
  }

  /** The age of an undecided claim decides. */
  lemma JudgeStepsAlone(s: State, h: nat, says: PaymentResult)
    requires AtPayment(s, h) && s.handlers[h].pc.Undecided? && ProviderMaySay(s, EventOf(s, h).order, says)
    requires EventOf(s, h).order in s.db.ledger && Decision(s.db.ledger[EventOf(s, h).order]).None?
    ensures var o := EventOf(s, h).order;
      if s.db.ledger[o].createdAt + 30 < s.now
      then AuthorizedTo(s, JudgeSteps(s, h, says), h, s.db.ledger[o := Decided(s.db.ledger[o], says)], Some(says))
      else AuthorizedTo(s, JudgeSteps(s, h, says), h, s.db.ledger, None)
  {
    if IsStale(s.db.ledger[EventOf(s, h).order], s.now) {
      ChargeStepsAlone(DoGateway(s, JudgeStaleStep(h)), h, says);
    }
  }

  /** Undisturbed, the steps of the gateway are `PaymentGateway.authorize`. */
  lemma AuthorizeStepsAlone(s: State, h: nat, says: PaymentResult)
    requires MayAuthorize(s, h, says)
    ensures var (ledger, result) := Database.AuthorizeAlone(s.db.ledger, EventOf(s, h).order, s.now, says);
      AuthorizedTo(s, AuthorizeSteps(s, h, says), h, ledger, result)
  {
    var o := EventOf(s, h).order;
    if o !in s.db.ledger {
      FirstAuthorization(s, h, says);
    } else if Decision(s.db.ledger[o]).Some? {
      DecidedAuthorization(s, h, says);
    } else {
      UndecidedAuthorization(s, h, says);
    }
  }

  // ---------- deliveries ----------

  /** A delivery of a message of the given kind, just received or just authorised. */
  predicate Delivered(s: State, h: nat, kind: EventKind) {
    h in s.handlers && s.handlers[h].message < |s.db.outbox| && EventOf(s, h).kind == kind && |s.audit| == |s.db.orders|
  }

  /** Where the delivery ends, for what its handling has come to. */
  function EndOf(outcome: Database.Outcome): Pc {
    if outcome.Rethrown? then Failing else Handled
  }

  /** The delivery has come to the end of its transaction. */
  predicate Concluded(s: State, s': State, h: nat, outcome: TxOutcome)
    requires h in s.handlers
  {
    match outcome
    case Committed(db) => s'.db == db && s'.handlers == Goto(s, h, Handled).handlers
    case Duplicate => s'.db == s.db && s'.handlers == Goto(s, h, Handled).handlers
    case Threw(_) => s'.db == s.db && s'.handlers == Goto(s, h, Failing).handlers
  }

  lemma ConcludeAlone(s: State, h: nat, outcome: TxOutcome)
    requires h in s.handlers && s.handlers[h].message < |s.db.outbox|
    ensures Concluded(s, Conclude(s, h, outcome), h, outcome)
  {
  }

  lemma CommitAlone(s: State, h: nat, key: InboxKey, work: Result<Db>)
    requires CanCommit(s, h) && Work(s, h) == work && key == InboxKeyOf(s.db, s.handlers[h].message)
    ensures Concluded(s, DoDelivery(s, CommitStep(h)), h, FinishRunOnce(key, work))
  {
    ConcludeAlone(s, h, FinishRunOnce(key, work));
  }

  /** The tables and the delivery are as a handling that came to `end` leaves them. */
  predicate HandledTo(s: State, s': State, h: nat, end: (Db, Database.Outcome))
    requires h in s.handlers
  {
    s'.db == end.0 && s'.handlers == Goto(s, h, EndOf(end.1)).handlers
  }

  // ---------- OrderCreated ----------

  function JudgeAndCommit(s: State, h: nat): State
    requires Delivered(s, h, Created) && s.handlers[h].pc.InboxFree?
  {
    DoDelivery(DoDelivery(s, JudgeStockStep(h)), CommitStep(h))
  }

  function InventorySteps(s: State, h: nat): State
    requires Delivered(s, h, Created) && s.handlers[h].pc.Start?
  {
    var checked := DoDelivery(s, CheckInboxStep(h));
    if checked.handlers[h].pc.Handled? then checked else JudgeAndCommit(checked, h)
  }

  /** What follows the inbox check of OrderCreated. */
  lemma JudgeAndCommitAlone(s: State, h: nat)
    requires Delivered(s, h, Created) && s.handlers[h].pc.InboxFree?
    ensures var e := EventOf(s, h);
      Concluded(s, JudgeAndCommit(s, h), h,
                FinishRunOnce((s.handlers[h].message, Inventory),
                              InventoryWork(s.db, e, !CanReserve(s.db.stock, e.items))))
  {
    var e := EventOf(s, h);
    var short := !CanReserve(s.db.stock, e.items);
    var judged := Goto(s, h, StockJudged(short));
    assert DoDelivery(s, JudgeStockStep(h)) == judged;
    assert Work(judged, h) == InventoryWork(s.db, e, short);
    CommitAlone(judged, h, (s.handlers[h].message, Inventory), InventoryWork(s.db, e, short));
  }

  lemma InventoryStepsAlone(s: State, h: nat)
    requires Delivered(s, h, Created) && s.handlers[h].pc.Start?
    ensures var e := EventOf(s, h);
      var work := InventoryWork(s.db, e, !CanReserve(s.db.stock, e.items));
      HandledTo(s, InventorySteps(s, h), h,
                Database.ProcessEventOnce(s.db, Some(s.handlers[h].message), Inventory, work))
  {
    var checked := DoDelivery(s, CheckInboxStep(h));
    if !checked.handlers[h].pc.Handled? {
      assert checked == Goto(s, h, InboxFree);
      JudgeAndCommitAlone(checked, h);
    }
  }

  // ---------- the other events ----------

  /** A delivery of anything but OrderCreated that is about to look at the inbox. */
  predicate MayCheck(s: State, h: nat) {
    && CanCheckInbox(s, h) && !EventOf(s, h).kind.Created? && |s.audit| == |s.db.orders|
    && (EventOf(s, h).kind.InventoryReserved? <==> s.handlers[h].pc.Answered?)
  }

  function CheckAndCommit(s: State, h: nat): State
    requires MayCheck(s, h)
  {
    var checked := DoDelivery(s, CheckInboxStep(h));
    if checked.handlers[h].pc.Handled? then checked else DoDelivery(checked, CommitStep(h))
  }

  /** The work its consumer does. */
  function WorkOf(s: State, h: nat): Result<Db>
    requires MayCheck(s, h)
  {
    match EventOf(s, h).kind
    case InventoryReserved => PaymentWork(s.db, EventOf(s, h), s.handlers[h].pc.result)
    case PaymentProcessed => CompletionWork(s.db, EventOf(s, h))
    case _ => Ok(s.db)
  }

  lemma CheckAndCommitAlone(s: State, h: nat)
    requires MayCheck(s, h)
    ensures HandledTo(s, CheckAndCommit(s, h), h,
                      Database.RunOnce(s.db, InboxKeyOf(s.db, s.handlers[h].message), WorkOf(s, h)))
  {
    var checked := DoDelivery(s, CheckInboxStep(h));
    if !checked.handlers[h].pc.Handled? {
      assert Work(checked, h) == WorkOf(s, h);
      CommitAlone(checked, h, InboxKeyOf(s.db, s.handlers[h].message), WorkOf(s, h));
    }
  }

  function PaymentSteps(s: State, h: nat, says: PaymentResult): State
    requires Delivered(s, h, InventoryReserved) && MayAuthorize(s, h, says)
  {
    var authorized := AuthorizeSteps(s, h, says);
    AuthorizeStepsAlone(s, h, says);
    if authorized.handlers[h].pc.Failing? then authorized else CheckAndCommit(authorized, h)
  }

  lemma PaymentStepsAlone(s: State, h: nat, says: PaymentResult)
    requires Delivered(s, h, InventoryReserved) && MayAuthorize(s, h, says)
    ensures HandledTo(s, PaymentSteps(s, h, says), h,
                      Database.AdvanceAlone(s.db, Some(s.handlers[h].message), EventOf(s, h), s.now, says))
  {
    AuthorizeStepsAlone(s, h, says);
    var authorized := AuthorizeSteps(s, h, says);
    if !authorized.handlers[h].pc.Failing? {
      CheckAndCommitAlone(authorized, h);
    }
  }

  lemma CompletionStepsAlone(s: State, h: nat)
    requires Delivered(s, h, PaymentProcessed) && s.handlers[h].pc.Start?
    ensures HandledTo(s, CheckAndCommit(s, h), h,
                      Database.ProcessEventOnce(s.db, Some(s.handlers[h].message), Completion,
                                                CompletionWork(s.db, EventOf(s, h))))
  {
    CheckAndCommitAlone(s, h);
  }

  /** The email consumer only records that it has had the message. */
  lemma EmailStepsAlone(s: State, h: nat, kind: EventKind)
    requires kind in {Completed, Failed} && Delivered(s, h, kind) && s.handlers[h].pc.Start?
    ensures CheckAndCommit(s, h).db == s.db.(inbox := s.db.inbox + {(s.handlers[h].message, Email)})
    ensures CheckAndCommit(s, h).handlers == Goto(s, h, Handled).handlers
  {
    CheckAndCommitAlone(s, h);
    assert (s.handlers[h].message, Email) in s.db.inbox ==>
        s.db.inbox + {(s.handlers[h].message, Email)} == s.db.inbox;
  }

  /** A consumer that dies, wherever it stands, gives the broker back exactly the copy it had taken. */
  lemma CrashUndoesDelivery(s: State, h: nat, c: Copy, pc: Pc)
    requires h !in s.handlers && c in s.broker.work
    ensures DoCrash(Goto(DoDeliver(s, h, c), h, pc), h) == s
  {
    assert s.broker.work - multiset{c} + multiset{c} == s.broker.work;
    AddedAndRemoved(s.handlers, h, Handler(c.message, c.attempts, Saga.Start), Handler(c.message, c.attempts, pc));
  }

  // ---------- the relay and the retries ----------

  /** A row that is unpublished and not locked can be relayed: afterwards it is marked, and one fresh copy is queued. */
  lemma RelayStepsAlone(s: State, d: nat, m: MessageId)
    requires m < |s.db.outbox| && m !in s.db.published && d !in s.drains
    requires forall i | i in s.drains :: m !in s.drains[i]
    ensures CanRelay(s, PublishStep(d, m)) && CanRelay(DoRelay(s, PublishStep(d, m)), DrainCommitStep(d))
    ensures DoRelay(DoRelay(s, PublishStep(d, m)), DrainCommitStep(d)) ==
            s.(db := s.db.(published := s.db.published + {m}),
               broker := s.broker.(work := s.broker.work + multiset{Copy(m, 0)}))
  {
    assert {} + {m} == {m};
    AddedAndRemoved(s.drains, d, {m}, {m});
  }

  /** Any queued copy can be received. */
  lemma AnyCopyCanBeDelivered(s: State, h: nat, c: Copy)
    requires h !in s.handlers && c in s.broker.work
    ensures CanDelivery(s, DeliverStep(h, c))
    ensures DoDelivery(s, DeliverStep(h, c)).handlers == s.handlers[h := Handler(c.message, c.attempts, Saga.Start)]
    ensures DoDelivery(s, DeliverStep(h, c)).broker.work + multiset{c} == s.broker.work
  {
  }

  /** Park, acknowledge, expire. */
  function RetrySteps(s: State, h: nat): State
    requires h in s.handlers && s.handlers[h].pc.Failing? && s.handlers[h].attempts < MAX_RETRIES
  {
    var parked := DoDelivery(s, RetryStep(h));
    DoDelivery(DoDelivery(parked, AckStep(h)), ExpireStep(Copy(s.handlers[h].message, s.handlers[h].attempts + 1)))
  }

  /** A failed delivery with retries left comes back to its work queue, once, with one attempt more. */
  lemma RetryStepsAlone(s: State, h: nat)
    requires h in s.handlers && s.handlers[h].pc.Failing? && s.handlers[h].attempts < MAX_RETRIES
    ensures var c := Copy(s.handlers[h].message, s.handlers[h].attempts + 1);
      RetrySteps(s, h) == s.(broker := s.broker.(work := s.broker.work + multiset{c}),
                             handlers := Without(s.handlers, h))
  {
    var c := Copy(s.handlers[h].message, s.handlers[h].attempts + 1);
    assert s.broker.wait + multiset{c} - multiset{c} == s.broker.wait;
    assert Without(s.handlers[h := s.handlers[h].(pc := Resent)], h) == Without(s.handlers, h);
  }

  // ---------- payment and cancellation ----------

  /** The owner's payment of a RESERVED, unpaid order marks it and announces it; any other changes nothing. */
  lemma PayStepAlone(s: State, o: OrderId, user: UserId)
    ensures DoRequest(s, PayStep(o, user)) ==
      if o < |s.db.orders| && s.db.orders[o].user == user && s.db.orders[o].status == RESERVED &&
         !s.db.orders[o].paymentInitiated
      then s.(db := s.db.(orders := s.db.orders[o := s.db.orders[o].(paymentInitiated := true)],
                          outbox := s.db.outbox + [Event(InventoryReserved, o, [])]))
      else s
  {
  }

  /** Restore line after line. */
  function RestoreSteps(s: State, req: nat): State
    requires req in s.cancels ==> CanCancelRestore(s, req)
    decreases if req in s.cancels then |s.cancels[req].remaining| else 0
  {
    if req !in s.cancels then s
    else if |s.cancels[req].remaining| == 1 then DoRequest(s, CancelRestoreStep(req))
    else RestoreSteps(DoRequest(s, CancelRestoreStep(req)), req)
  }

  lemma RestoreFirst(db: Db, l: Line, rest: seq<Line>)
    ensures Restored(RestoreLine(db, l).stock, rest) == Restored(db.stock, [l] + rest)
  {
    forall p: ProductId ensures Total([l] + rest, p) == QuantityOf(l, p) + Total(rest, p) { TotalCons(l, rest, p); }
  }

  lemma {:induction false} RestoreStepsAlone(s: State, req: nat)
    requires CanCancelRestore(s, req)
    ensures RestoreSteps(s, req).db == s.db.(stock := Restored(s.db.stock, s.cancels[req].remaining))
    ensures RestoreSteps(s, req).cancels == Without(s.cancels, req)
    decreases |s.cancels[req].remaining|
  {
    var remaining := s.cancels[req].remaining;
    RestoreFirst(s.db, remaining[0], remaining[1..]);
    assert remaining == [remaining[0]] + remaining[1..];
    var next := DoRequest(s, CancelRestoreStep(req));
    if |remaining| == 1 {
      assert Restored(next.db.stock, []) == next.db.stock;
    } else {
      RestoreStepsAlone(next, req);
      assert Without(next.cancels, req) == Without(s.cancels, req);
    }
  }

  /** Read, claim, restore. */
  function CancelSteps(s: State, req: nat, o: OrderId, user: UserId): State
    requires req !in s.cancels && |s.audit| == |s.db.orders|
  {
    var read := DoRequest(s, CancelReadStep(req, o, user));
    if req !in read.cancels then read else RestoreSteps(DoRequest(read, CancelClaimStep(req)), req)
  }

  /** Undisturbed, the owner of a PENDING or RESERVED, unpaid order cancels it and everything it had taken goes back to
      stock; every other request changes nothing. */
  lemma CancelStepsAlone(s: State, req: nat, o: OrderId, user: UserId)
    requires req !in s.cancels && |s.audit| == |s.db.orders|
    ensures var s' := CancelSteps(s, req, o, user);
      && s'.cancels == s.cancels
      && s'.db ==
           if o < |s.db.orders| && s.db.orders[o].user == user &&
              (s.db.orders[o].status == PENDING ||
               (s.db.orders[o].status == RESERVED && !s.db.orders[o].paymentInitiated))
           then s.db.(orders := s.db.orders[o := s.db.orders[o].(status := CANCELLED)],
                      stock := if s.db.orders[o].status == RESERVED then Restored(s.db.stock, s.db.orders[o].lines)
                               else s.db.stock)
           else s.db
  {
    if o < |s.db.orders| && s.db.orders[o].user == user && Cancellable(s.db.orders[o]) {
      if s.db.orders[o].status == RESERVED && s.db.orders[o].lines != [] {
        RestoringCancel(s, req, o, user);
      } else {
        EmptyCancel(s, req, o, user);
      }
    }
  }

  /** A cancel with something to restore. */
  lemma RestoringCancel(s: State, req: nat, o: OrderId, user: UserId)
    requires req !in s.cancels && |s.audit| == |s.db.orders| && o < |s.db.orders| && s.db.orders[o].user == user
    requires Cancellable(s.db.orders[o]) && s.db.orders[o].status == RESERVED && s.db.orders[o].lines != []
    ensures CancelSteps(s, req, o, user).cancels == s.cancels
    ensures CancelSteps(s, req, o, user).db ==
            SetStatus(s.db, o, CANCELLED).(stock := Restored(s.db.stock, s.db.orders[o].lines))
  {
    var lines := s.db.orders[o].lines;
    var claimed := DoRequest(DoRequest(s, CancelReadStep(req, o, user)), CancelClaimStep(req));
    assert claimed.cancels == s.cancels[req := CancelRestoring(o, lines)];
    RestoreStepsAlone(claimed, req);
    AddedAndRemoved(s.cancels, req, CancelRestoring(o, lines), CancelRestoring(o, lines));
  }

  /** A cancel with nothing to restore. */
  lemma EmptyCancel(s: State, req: nat, o: OrderId, user: UserId)
    requires req !in s.cancels && |s.audit| == |s.db.orders| && o < |s.db.orders| && s.db.orders[o].user == user
    requires Cancellable(s.db.orders[o]) && (s.db.orders[o].status == RESERVED ==> s.db.orders[o].lines == [])
    ensures CancelSteps(s, req, o, user).cancels == s.cancels
    ensures CancelSteps(s, req, o, user).db == SetStatus(s.db, o, CANCELLED)
    ensures Restored(s.db.stock, []) == s.db.stock
  {
    var read := DoRequest(s, CancelReadStep(req, o, user));
    AddedAndRemoved(s.cancels, req, read.cancels[req], read.cancels[req]);
    assert DoRequest(read, CancelClaimStep(req)).cancels == Without(read.cancels, req);
  }
}
