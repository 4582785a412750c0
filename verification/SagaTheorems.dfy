/** What the saga promises, in every reachable state and over whole runs. */
module SagaTheorems {
  import opened Common
  import opened OrderStateMachine
  import opened Stock
  import opened Tables
  import opened Saga
  import opened SagaInvariant
  import opened SagaTables
  import opened SagaSteps
  import opened SagaDeliveries
  import Retry

  // ---------- runs ----------

  lemma StepKeepsInv(s: State, step: Step)
    requires Inv(s) && Enabled(s, step)
    ensures Inv(Apply(s, step))
  {
    match step
    case Request(r) => RequestKeeps(s, r);
    case Relay(r) => RelayKeeps(s, r);
    case Delivery(d) => DeliveryKeeps(s, d);
    case Gateway(g) => GatewayKeeps(s, g);
  }

  lemma InitKeepsInv(s: State)
    requires Init(s)
    ensures Inv(s)
  {
  }

  lemma RunStepKeepsInv(run: seq<State>, k: nat)
    requires IsRun(run) && k + 1 < |run| && Inv(run[k])
    ensures Inv(run[k + 1])
  {
    assert Follows(run, k);
    var step :| Enabled(run[k], step) && run[k + 1] == Apply(run[k], step);
    StepKeepsInv(run[k], step);
  }

  lemma {:induction false} RunKeepsInv(run: seq<State>, i: nat)
    requires IsRun(run) && i < |run|
    ensures Inv(run[i])
  {
    if i == 0 {
      InitKeepsInv(run[0]);
    } else {
      RunKeepsInv(run, i - 1);
      RunStepKeepsInv(run, i - 1);
    }
  }

  ghost predicate Reachable(s: State) {
    exists run :: IsRun(run) && Last(run) == s
  }

  lemma ReachableInv(s: State)
    requires Reachable(s)
    ensures Inv(s)
  {
    var run :| IsRun(run) && Last(run) == s;
    RunKeepsInv(run, |run| - 1);
  }

  /** What stays true for ever once it is: the tables only move forward. */
  ghost predicate OrderLater(a: Db, b: Db, o: OrderId)
    requires o < |a.orders| && o < |b.orders|
  {
    && a.orders[o].user == b.orders[o].user && a.orders[o].lines == b.orders[o].lines
    && (a.orders[o].paymentInitiated ==> b.orders[o].paymentInitiated)
    && Rank(a.orders[o].status) <= Rank(b.orders[o].status)
    && (IsTerminalStatus(a.orders[o].status) ==> a.orders[o] == b.orders[o])
  }

  ghost predicate LedgerLater(a: Db, b: Db, o: OrderId) {
    o in a.ledger ==> o in b.ledger && (Decision(a.ledger[o]).Some? ==> b.ledger[o] == a.ledger[o])
  }

  ghost predicate Later(a: State, b: State) {
    && |a.db.orders| <= |b.db.orders| && a.db.outbox <= b.db.outbox
    && a.db.published <= b.db.published && a.db.inbox <= b.db.inbox
    && (forall o :: 0 <= o < |a.db.orders| ==> OrderLater(a.db, b.db, o))
    && (forall o :: LedgerLater(a.db, b.db, o))
    && a.provider.Keys <= b.provider.Keys
  }

  lemma EvolvesLater(s: State, s': State)
    requires Evolves(s.db, s'.db) && s.provider.Keys <= s'.provider.Keys
    ensures Later(s, s')
  {
    forall o | 0 <= o < |s.db.orders| ensures OrderLater(s.db, s'.db, o) {
      assert OrderEvolves(s.db, s'.db, o);
    }
  }

  lemma SameRowsLater(s: State, s': State)
    requires s'.db == s.db.(stock := s'.db.stock) && s.provider.Keys <= s'.provider.Keys
    ensures Later(s, s')
  {
  }

  lemma CreateLater(s: State, user: UserId, lines: seq<Line>)
    ensures Later(s, DoCreate(s, user, lines))
  {
  }

  lemma PayLater(s: State, o: OrderId, user: UserId)
    ensures Later(s, DoPay(s, o, user))
  {
  }

  lemma CancelClaimLater(s: State, req: nat)
    requires CanCancelClaim(s, req)
    ensures Later(s, DoCancelClaim(s, req))
  {
    CancelClaimFrame(s, req);
    EvolvesLater(s, DoCancelClaim(s, req));
  }

  lemma RequestLater(s: State, step: RequestStep)
    requires CanRequest(s, step)
    ensures Later(s, DoRequest(s, step))
  {
    match step
    case CreateStep(user, lines) => CreateLater(s, user, lines);
    case PayStep(o, user) => PayLater(s, o, user);
    case CancelClaimStep(req) => CancelClaimLater(s, req);
    case CancelReadStep(req, o, user) =>
      CancelReadFrame(s, req, o, user);
      EvolvesLater(s, DoCancelRead(s, req, o, user));
    case _ => SameRowsLater(s, DoRequest(s, step));
  }

  lemma CommitLater(s: State, h: nat)
    requires CanCommit(s, h) && HandlerOk(s, h)
    ensures Later(s, DoCommit(s, h))
  {
    if Commits(s, h) {
      CommitEvolves(s, h);
      CommitShape(s, h);
      EvolvesLater(s, DoCommit(s, h));
    } else {
      RollbackIsGoto(s, h);
      SameRowsLater(s, DoCommit(s, h));
    }
  }

  lemma DeliveryLater(s: State, step: DeliveryStep)
    requires BrokerOk(s) && CanDelivery(s, step)
    ensures Later(s, DoDelivery(s, step))
  {
    match step
    case CommitStep(h) =>
      assert HandlerOk(s, h);
      CommitLater(s, h);
    case _ => SameRowsLater(s, DoDelivery(s, step));
  }

  lemma ClaimLedgerLater(s: State, h: nat)
    requires AtPayment(s, h)
    ensures Later(s, DoClaimLedger(s, h))
  {
  }

  lemma ReadLedgerLater(s: State, h: nat)
    requires AtPayment(s, h)
    ensures Later(s, DoReadLedger(s, h))
  {
  }

  lemma JudgeStaleLater(s: State, h: nat)
    requires AtPayment(s, h)
    ensures Later(s, DoJudgeStale(s, h))
  {
  }

  lemma RecordLater(s: State, h: nat)
    requires AtPayment(s, h) && s.handlers[h].pc.Charged?
    ensures Later(s, DoRecord(s, h))
  {
  }

  lemma GatewayLater(s: State, step: GatewayStep)
    requires CanGateway(s, step)
    ensures Later(s, DoGateway(s, step))
  {
    match step
    case ClaimLedgerStep(h) => ClaimLedgerLater(s, h);
    case ReadLedgerStep(h) => ReadLedgerLater(s, h);
    case JudgeStaleStep(h) => JudgeStaleLater(s, h);
    case ChargeStep(h, result) => SameRowsLater(s, DoCharge(s, h, result));
    case ChargeFailsStep(h) => SameRowsLater(s, DoChargeFails(s, h));
    case RecordStep(h) => RecordLater(s, h);
  }

  lemma RelayLater(s: State, step: RelayStep)
    requires CanRelay(s, step)
    ensures Later(s, DoRelay(s, step))
  {
  }

  lemma StepLater(s: State, step: Step)
    requires BrokerOk(s) && Enabled(s, step)
    ensures Later(s, Apply(s, step))
  {
    match step
    case Request(r) => RequestLater(s, r);
    case Relay(r) => RelayLater(s, r);
    case Delivery(d) => DeliveryLater(s, d);
    case Gateway(g) => GatewayLater(s, g);
  }

  lemma LaterTransitive(a: State, b: State, c: State)
    requires Later(a, b) && Later(b, c)
    ensures Later(a, c)
  {
    forall o | 0 <= o < |a.db.orders| ensures OrderLater(a.db, c.db, o) {
      assert OrderLater(a.db, b.db, o) && OrderLater(b.db, c.db, o);
    }
    forall o ensures LedgerLater(a.db, c.db, o) {
      assert LedgerLater(a.db, b.db, o) && LedgerLater(b.db, c.db, o);
    }
  }

  ghost predicate LaterAt(run: seq<State>, k: nat)
    requires k + 1 < |run|
  {
    Later(run[k], run[k + 1])
  }

  lemma RunStepLater(run: seq<State>, k: nat)
    requires IsRun(run) && k + 1 < |run|
    ensures LaterAt(run, k)
  {
    RunKeepsInv(run, k);
    assert Follows(run, k);
    var step :| Enabled(run[k], step) && run[k + 1] == Apply(run[k], step);
    StepLater(run[k], step);
  }

  lemma LaterReflexive(s: State)
    ensures Later(s, s)
  {
  }

  lemma {:induction false} ChainLater(run: seq<State>, i: nat, j: nat)
    requires forall k: nat :: k + 1 < |run| ==> LaterAt(run, k)
    requires i <= j < |run|
    ensures Later(run[i], run[j])
  {
    if i == j {
      LaterReflexive(run[i]);
    } else {
      ChainLater(run, i, j - 1);
      assert LaterAt(run, j - 1);
      LaterTransitive(run[i], run[j - 1], run[j]);
    }
  }

  lemma RunLater(run: seq<State>, i: nat, j: nat)
    requires IsRun(run) && i <= j < |run|
    ensures Later(run[i], run[j])
  {
    forall k: nat | k + 1 < |run| ensures LaterAt(run, k) { RunStepLater(run, k); }
    ChainLater(run, i, j);
  }

  // ---------- state and events correspond ----------

  function CountEvents(outbox: seq<Event>, kind: EventKind, o: OrderId): nat {
    if outbox == [] then 0
    else
      CountEvents(outbox[..|outbox| - 1], kind, o) +
      (if Last(outbox).kind == kind && Last(outbox).order == o then 1 else 0)
  }

  lemma {:induction false} CountNone(outbox: seq<Event>, kind: EventKind, o: OrderId)
    requires forall m :: 0 <= m < |outbox| ==> outbox[m].kind != kind || outbox[m].order != o
    ensures CountEvents(outbox, kind, o) == 0
  {
    if outbox != [] {
      CountNone(outbox[..|outbox| - 1], kind, o);
    }
  }

  lemma {:induction false} CountOne(outbox: seq<Event>, kind: EventKind, o: OrderId, m: nat)
    requires m < |outbox| && outbox[m].kind == kind && outbox[m].order == o
    requires forall n :: 0 <= n < |outbox| && n != m ==> outbox[n].kind != kind || outbox[n].order != o
    ensures CountEvents(outbox, kind, o) == 1
  {
    if m == |outbox| - 1 {
      CountNone(outbox[..m], kind, o);
    } else {
      CountOne(outbox[..|outbox| - 1], kind, o, m);
    }
  }

  /** Exactly one outbox row for each thing an order's row says has happened, none otherwise. */
  lemma EventsMatchState(s: State, o: OrderId, kind: EventKind)
    requires Reachable(s) && o < |s.db.orders|
    ensures CountEvents(s.db.outbox, kind, o) == if Announces(s.db.orders[o], kind) then 1 else 0
  {
    ReachableInv(s);
    if Announces(s.db.orders[o], kind) {
      assert Announced(s.db, o);
      var m: MessageId :| IsEvent(s.db, m, kind, o);
      CountOne(s.db.outbox, kind, o, m);
    } else {
      NotAnnounced(s.db, kind, o);
      forall m | 0 <= m < |s.db.outbox| ensures s.db.outbox[m].kind != kind || s.db.outbox[m].order != o {
        assert !IsEvent(s.db, m, kind, o);
      }
      CountNone(s.db.outbox, kind, o);
    }
  }

  // ---------- no event is lost ----------

  /** The event an unfinished order is waiting for. */
  function NextEvent(order: Order): Option<EventKind> {
    match order.status
    case PENDING => Some(Created)
    case RESERVED => if order.paymentInitiated then Some(InventoryReserved) else None
    case PAID => Some(PaymentProcessed)
    case _ => None
  }

  /** The event is in the outbox or in the broker, and its consumer has not had it. */
  ghost predicate OnItsWay(s: State, m: MessageId) {
    m < |s.db.outbox| && !Processed(s.db, m) && (m !in s.db.published || InBroker(s, m))
  }

  /** An order that waits for an event has exactly one such event, and it is on its way. */
  lemma NoEventIsLost(s: State, o: OrderId)
    requires Reachable(s) && o < |s.db.orders| && NextEvent(s.db.orders[o]).Some?
    ensures var kind := NextEvent(s.db.orders[o]).value;
      && (exists m :: IsEvent(s.db, m, kind, o) && OnItsWay(s, m))
      && CountEvents(s.db.outbox, kind, o) == 1
  {
    ReachableInv(s);
    var kind := NextEvent(s.db.orders[o]).value;
    EventsMatchState(s, o, kind);
    assert Announced(s.db, o);
    var m: MessageId :| IsEvent(s.db, m, kind, o);
    assert EventOk(s.db, m);
    assert m in s.db.published ==> NotDropped(s, m);
    assert OnItsWay(s, m);
  }

  /** Everything relayed, every queue empty, nothing dead-lettered, no delivery open. */
  ghost predicate Quiescent(s: State) {
    && (forall m :: 0 <= m < |s.db.outbox| ==> m in s.db.published)
    && s.broker == Broker(multiset{}, multiset{}, multiset{}) && s.handlers == map[]
  }

  /** Once nothing is in transit, every order is finished or waiting for its owner to pay. */
  lemma QuiescenceSettlesOrders(s: State, o: OrderId)
    requires Reachable(s) && Quiescent(s) && o < |s.db.orders|
    ensures IsTerminalStatus(s.db.orders[o].status) || AwaitingPayment(s.db.orders[o])
  {
    forall m: MessageId ensures !OnItsWay(s, m) {
      if m < |s.db.outbox| {
        assert m in s.db.published && !InBroker(s, m);
      }
    }
    if NextEvent(s.db.orders[o]).Some? {
      NoEventIsLost(s, o);
    }
  }

  // ---------- an event finds its order ready ----------

  lemma EventFindsOrderReady(s: State, m: MessageId)
    requires Reachable(s) && m < |s.db.outbox| && !Processed(s.db, m)
    ensures s.db.outbox[m].order < |s.db.orders|
    ensures var status := s.db.orders[s.db.outbox[m].order].status;
      match s.db.outbox[m].kind
      case Created => status in {PENDING, CANCELLED}
      case InventoryReserved => status == RESERVED
      case PaymentProcessed => status == PAID
      case Completed => status == COMPLETED
      case Failed => status == FAILED
  {
    ReachableInv(s);
    assert EventOk(s.db, m);
  }

  /** The work of a first processing refuses exactly when inventory meets a cancelled order, and then nothing
      changes. */
  lemma OnlyCancelledOrdersRefuse(s: State, h: nat)
    requires Reachable(s) && CanCommit(s, h) && !Processed(s.db, s.handlers[h].message)
    ensures EventOf(s, h).order < |s.db.orders|
    ensures Work(s, h).Err? <==> EventOf(s, h).kind.Created? && s.db.orders[EventOf(s, h).order].status == CANCELLED
    ensures Work(s, h).Err? ==> DoCommit(s, h) == Goto(s, h, Failing)
    ensures Work(s, h).Ok? ==> InboxKeyOf(s.db, s.handlers[h].message) in DoCommit(s, h).db.inbox
  {
    EventFindsOrderReady(s, s.handlers[h].message);
    ReachableInv(s);
    assert HandlerOk(s, h);
    if Work(s, h).Ok? {
      assert Work(s, h).value.inbox == s.db.inbox;
      CommitShape(s, h);
    }
  }

  // ---------- exactly once ----------

  lemma WorkIsAppliedOnce(s: State, key: InboxKey)
    requires Reachable(s)
    ensures s.applied[key] == if key in s.db.inbox then 1 else 0
  {
    ReachableInv(s);
  }

  /** A delivery that lost the race changes nothing, whatever its work would have done. */
  lemma LoserChangesNothing(s: State, h: nat)
    requires CanCommit(s, h) && Processed(s.db, s.handlers[h].message)
    ensures DoCommit(s, h) == Goto(s, h, if Work(s, h).Ok? then Handled else Failing)
  {
    if Work(s, h).Ok? {
      assert Work(s, h).value.inbox == s.db.inbox;
    }
  }

  // ---------- payments ----------

  lemma PaymentAgreement(run: seq<State>, i: nat, j: nat, o: OrderId, a: PaymentResult, b: PaymentResult)
    requires IsRun(run) && i < |run| && j < |run|
    requires o < |run[i].audit| && a in run[i].audit[o].answers
    requires o < |run[j].audit| && b in run[j].audit[o].answers
    ensures a == b
  {
    if i > j {
      PaymentAgreement(run, j, i, o, b, a);
    } else {
      RunKeepsInv(run, i);
      RunKeepsInv(run, j);
      RunLater(run, i, j);
      assert AnswersAgree(run[i], o) && AnswersAgree(run[j], o);
      assert LedgerLater(run[i].db, run[j].db, o);
    }
  }

  lemma DecisionIsFinal(run: seq<State>, i: nat, j: nat, o: OrderId)
    requires IsRun(run) && i <= j < |run|
    requires o in run[i].db.ledger && Decision(run[i].db.ledger[o]).Some?
    ensures o in run[j].db.ledger && Decision(run[j].db.ledger[o]) == Decision(run[i].db.ledger[o])
    ensures o in run[j].provider && Decision(run[j].db.ledger[o]).value == run[j].provider[o]
  {
    RunLater(run, i, j);
    RunKeepsInv(run, j);
    assert LedgerLater(run[i].db, run[j].db, o) && LedgerAgrees(run[j], o);
  }

  lemma ProviderCallsAreBounded(s: State, o: OrderId)
    requires Reachable(s) && o < |s.audit|
    ensures s.audit[o].providerCalls <= 1 + s.audit[o].takeovers
    ensures o !in s.db.ledger ==> s.audit[o].providerCalls == s.audit[o].takeovers == 0
  {
    ReachableInv(s);
    assert ChargeOk(s, o);
  }

  lemma StatusFollowsLedger(s: State, o: OrderId)
    requires Reachable(s) && o < |s.db.orders|
    ensures s.db.orders[o].status in {PAID, COMPLETED} ==> Authorised(s.db, o)
    ensures Authorised(s.db, o) ==> s.db.orders[o].status in {RESERVED, PAID, COMPLETED}
  {
    ReachableInv(s);
    assert PaidAsRecorded(s.db, o);
  }

  /** Paying and cancelling exclude each other, in whichever order they are observed: for an order that is ever
      CANCELLED the provider is never called, not even by a call that throws. */
  lemma PayAndCancelExclude(run: seq<State>, i: nat, j: nat, o: OrderId)
    requires IsRun(run) && i < |run| && j < |run|
    requires o < |run[i].db.orders| && o < |run[j].db.orders|
    requires run[j].db.orders[o].status == CANCELLED
    ensures !run[i].db.orders[o].paymentInitiated
    ensures o !in run[i].provider && o !in run[i].db.ledger
    ensures o < |run[i].audit| && run[i].audit[o].providerCalls == 0 && run[i].audit[o].answers == {}
  {
    var k := if i <= j then j else i;
    RunLater(run, i, k);
    RunLater(run, j, k);
    RunKeepsInv(run, k);
    assert OrderLater(run[i].db, run[k].db, o) && OrderLater(run[j].db, run[k].db, o);
    assert LedgerLater(run[i].db, run[k].db, o);
    assert PaidAsRecorded(run[k].db, o);
    RunKeepsInv(run, i);
    assert ChargeOk(run[i], o) && AnswersAgree(run[i], o);
  }

  /** A duplicate that found an undecided claim takes it over exactly when the claim looks stale to the clock the
      retry schedule is measured against; otherwise it throws and changes nothing else. */
  lemma TakeoverIff(s: State, h: nat)
    requires Reachable(s) && AtPayment(s, h) && s.handlers[h].pc.Undecided?
    ensures var o, s' := EventOf(s, h).order, DoJudgeStale(s, h);
      && o in s.db.ledger
      && (s'.handlers[h].pc.Charging? <==>
            Decision(s.db.ledger[o]).None? && Retry.SeesStaleClaim(1000 * s.db.ledger[o].createdAt, 1000 * s.now))
      && (!s'.handlers[h].pc.Charging? ==> s' == Goto(s, h, Failing))
      && s'.db == s.db && s'.provider == s.provider
  {
    ReachableInv(s);
    assert HandlerOk(s, h);
  }

  // ---------- retries ----------

  /** No copy has been retried more often than allowed, and a dead-lettered one has used up its retries. */
  ghost predicate AttemptsOk(s: State) {
    && (forall c | c in s.broker.work :: c.attempts <= MAX_RETRIES)
    && (forall c | c in s.broker.wait :: 1 <= c.attempts <= MAX_RETRIES)
    && (forall c | c in s.broker.dlq :: c.attempts == MAX_RETRIES)
    && (forall h | h in s.handlers :: s.handlers[h].attempts <= MAX_RETRIES)
  }

  /** A delivery that only moves to another program point. */
  lemma MovingKeepsAttempts(s: State, s': State, h: nat)
    requires AttemptsOk(s) && MovesOn(s, s', h)
    ensures AttemptsOk(s')
  {
  }

  /** However a transaction ends, its delivery keeps its copy and the supply history is untouched. */
  lemma ConcludeMovesOn(s: State, h: nat, outcome: TxOutcome)
    requires h in s.handlers && s.handlers[h].message < |s.db.outbox|
    ensures MovesOn(s, Conclude(s, h, outcome), h) && Conclude(s, h, outcome).supplied == s.supplied
  {
  }

  lemma CommitMovesOn(s: State, h: nat)
    requires CanCommit(s, h)
    ensures MovesOn(s, DoCommit(s, h), h) && DoCommit(s, h).supplied == s.supplied
  {
    ConcludeMovesOn(s, h, FinishRunOnce(InboxKeyOf(s.db, s.handlers[h].message), Work(s, h)));
  }

  /** The copies a handler's commands put into wait queues, and those they dead-letter. */
  function SentCopies(commands: seq<Retry.Command>): multiset<Copy> {
    if commands == [] then multiset{}
    else
      SentCopies(commands[..|commands| - 1]) +
      match Last(commands)
      case SendToQueue(_, m) => multiset{Copy(m.messageId, Retry.Attempts(m))}
      case _ => multiset{}
  }

  function NackedCopies(commands: seq<Retry.Command>): multiset<Copy> {
    if commands == [] then multiset{}
    else
      NackedCopies(commands[..|commands| - 1]) +
      match Last(commands)
      case Nack(m) => multiset{Copy(m.messageId, Retry.Attempts(m))}
      case _ => multiset{}
  }

  lemma CopiesSnoc(commands: seq<Retry.Command>, c: Retry.Command)
    ensures SentCopies(commands + [c]) == SentCopies(commands) +
              (if c.SendToQueue? then multiset{Copy(c.message.messageId, Retry.Attempts(c.message))} else multiset{})
    ensures NackedCopies(commands + [c]) == NackedCopies(commands) +
              (if c.Nack? then multiset{Copy(c.message.messageId, Retry.Attempts(c.message))} else multiset{})
  {
    assert (commands + [c])[..|commands|] == commands;
  }

  lemma ThreeCopies(declare: Retry.Command, send: Retry.Command, ack: Retry.Command)
    requires declare.AssertQueue? && send.SendToQueue? && ack.Ack?
    ensures SentCopies([declare, send, ack]) == multiset{Copy(send.message.messageId, Retry.Attempts(send.message))}
    ensures NackedCopies([declare, send, ack]) == multiset{}
  {
    CopiesSnoc([], declare);
    CopiesSnoc([declare], send);
    CopiesSnoc([declare, send], ack);
    assert [] + [declare] == [declare] && [declare] + [send] == [declare, send];
    assert [declare, send] + [ack] == [declare, send, ack];
  }

  lemma ParkingCopies(queue: string, m: Retry.Message, maxRetries: nat, base: nat)
    requires Retry.Attempts(m) < maxRetries
    ensures var commands := Retry.Commands(queue, m, maxRetries, base);
      && SentCopies(commands) == multiset{Copy(m.messageId, Retry.Attempts(m) + 1)}
      && NackedCopies(commands) == multiset{}
      && Retry.Ack(m) in commands
  {
    var commands := Retry.Commands(queue, m, maxRetries, base);
    ThreeCopies(commands[0], commands[1], commands[2]);
    assert commands[2] == Retry.Ack(m);
  }

  lemma DeadLetteringCopies(queue: string, m: Retry.Message, maxRetries: nat, base: nat)
    requires Retry.Attempts(m) >= maxRetries
    ensures var commands := Retry.Commands(queue, m, maxRetries, base);
      && SentCopies(commands) == multiset{} && NackedCopies(commands) == multiset{Copy(m.messageId, Retry.Attempts(m))}
      && Retry.Ack(m) !in commands
  {
    CopiesSnoc([], Retry.Nack(m));
    assert [] + [Retry.Nack(m)] == [Retry.Nack(m)];
  }

  /** The saga's retry step does to the broker what the error handler's commands say: the copy it parks is the copy
      sent, with the same attempt count, and the delivery stays open exactly when an ack is still to come. */
  lemma RetryFollowsCommands(s: State, h: nat, queue: string, m: Retry.Message, base: nat)
    requires h in s.handlers && m.messageId == s.handlers[h].message && Retry.Attempts(m) == s.handlers[h].attempts
    ensures var commands, s' := Retry.Commands(queue, m, MAX_RETRIES, base), DoRetry(s, h);
      && s'.broker == s.broker.(wait := s.broker.wait + SentCopies(commands),
                                dlq := s.broker.dlq + NackedCopies(commands))
      && (h in s'.handlers <==> Retry.Ack(m) in commands)
      && (h in s'.handlers ==> s'.handlers[h].pc.Resent?)
  {
    if Retry.Attempts(m) < MAX_RETRIES {
      ParkingCopies(queue, m, MAX_RETRIES, base);
    } else {
      DeadLetteringCopies(queue, m, MAX_RETRIES, base);
    }
  }

  lemma DeliverKeepsAttempts(s: State, h: nat, c: Copy)
    requires AttemptsOk(s) && h !in s.handlers && c in s.broker.work
    ensures AttemptsOk(DoDeliver(s, h, c))
  {
  }

  lemma RetryKeepsAttempts(s: State, h: nat)
    requires AttemptsOk(s) && h in s.handlers
    ensures AttemptsOk(DoRetry(s, h))
  {
  }

  lemma CrashKeepsAttempts(s: State, h: nat)
    requires AttemptsOk(s) && h in s.handlers
    ensures AttemptsOk(DoCrash(s, h)) && AttemptsOk(s.(handlers := Without(s.handlers, h)))
  {
  }

  lemma DeliveryKeepsAttempts(s: State, step: DeliveryStep)
    requires AttemptsOk(s) && CanDelivery(s, step)
    ensures AttemptsOk(DoDelivery(s, step))
  {
    var s' := DoDelivery(s, step);
    match step
    case DeliverStep(h, c) => DeliverKeepsAttempts(s, h, c);
    case CrashStep(h) => CrashKeepsAttempts(s, h);
    case CheckInboxStep(h) => MovingKeepsAttempts(s, s', h);
    case JudgeStockStep(h) => MovingKeepsAttempts(s, s', h);
    case CommitStep(h) =>
      CommitMovesOn(s, h);
      MovingKeepsAttempts(s, s', h);
    case ThrowStep(h) => MovingKeepsAttempts(s, s', h);
    case RetryStep(h) => RetryKeepsAttempts(s, h);
    case AckStep(h) => CrashKeepsAttempts(s, h);
    case ExpireStep(c) =>
  }

  lemma RequestKeepsAttempts(s: State, step: RequestStep)
    requires AttemptsOk(s) && CanRequest(s, step)
    ensures AttemptsOk(DoRequest(s, step))
  {
    if step.CancelClaimStep? { CancelClaimFrame(s, step.req); }
  }

  /** `s'` differs from `s` in delivery `h`'s program point and not in the broker. */
  predicate MovesOn(s: State, s': State, h: nat) {
    && s'.broker == s.broker && h in s.handlers && h in s'.handlers
    && s'.handlers == s.handlers[h := s.handlers[h].(pc := s'.handlers[h].pc)]
  }

  lemma ClaimMovesOn(s: State, h: nat)
    requires AtPayment(s, h)
    ensures MovesOn(s, DoClaimLedger(s, h), h)
  {
  }

  lemma ReadMovesOn(s: State, h: nat)
    requires AtPayment(s, h)
    ensures MovesOn(s, DoReadLedger(s, h), h)
  {
  }

  lemma JudgeMovesOn(s: State, h: nat)
    requires AtPayment(s, h)
    ensures MovesOn(s, DoJudgeStale(s, h), h)
  {
  }

  lemma GatewayMovesOn(s: State, step: GatewayStep)
    requires CanGateway(s, step)
    ensures MovesOn(s, DoGateway(s, step), step.h)
  {
    match step
    case ClaimLedgerStep(h) => ClaimMovesOn(s, h);
    case ReadLedgerStep(h) => ReadMovesOn(s, h);
    case JudgeStaleStep(h) => JudgeMovesOn(s, h);
    case ChargeStep(h, result) =>
    case ChargeFailsStep(h) =>
    case RecordStep(h) =>
  }

  lemma GatewayKeepsAttempts(s: State, step: GatewayStep)
    requires AttemptsOk(s) && CanGateway(s, step)
    ensures AttemptsOk(DoGateway(s, step))
  {
    GatewayMovesOn(s, step);
    MovingKeepsAttempts(s, DoGateway(s, step), step.h);
  }

  lemma RelayKeepsAttempts(s: State, step: RelayStep)
    requires AttemptsOk(s) && CanRelay(s, step)
    ensures AttemptsOk(DoRelay(s, step))
  {
  }

  lemma StepKeepsAttempts(s: State, step: Step)
    requires AttemptsOk(s) && Enabled(s, step)
    ensures AttemptsOk(Apply(s, step))
  {
    match step
    case Request(r) => RequestKeepsAttempts(s, r);
    case Relay(r) => RelayKeepsAttempts(s, r);
    case Delivery(d) => DeliveryKeepsAttempts(s, d);
    case Gateway(g) => GatewayKeepsAttempts(s, g);
  }

  lemma RunStepKeepsAttempts(run: seq<State>, k: nat)
    requires IsRun(run) && k + 1 < |run| && AttemptsOk(run[k])
    ensures AttemptsOk(run[k + 1])
  {
    assert Follows(run, k);
    var step :| Enabled(run[k], step) && run[k + 1] == Apply(run[k], step);
    StepKeepsAttempts(run[k], step);
  }

  lemma {:induction false} AttemptsAreBounded(run: seq<State>, i: nat)
    requires IsRun(run) && i < |run|
    ensures AttemptsOk(run[i])
  {
    if i > 0 {
      AttemptsAreBounded(run, i - 1);
      RunStepKeepsAttempts(run, i - 1);
    }
  }

  // ---------- supply ----------

  /** Step `i` leads from state `i` of the run to the next. */
  ghost predicate StepAt(run: seq<State>, steps: seq<Step>, i: nat)
    requires |run| == |steps| + 1 && i < |steps|
  {
    Enabled(run[i], steps[i]) && run[i + 1] == Apply(run[i], steps[i])
  }

  /** A run together with the steps it took. */
  ghost predicate IsTrace(run: seq<State>, steps: seq<Step>) {
    && |run| == |steps| + 1 && Init(run[0])
    && forall i: nat :: i < |steps| ==> StepAt(run, steps, i)
  }

  /** The run without its last step. */
  lemma TracePrefix(run: seq<State>, steps: seq<Step>)
    requires IsTrace(run, steps) && steps != []
    ensures var n := |steps| - 1;
      && IsTrace(run[..n + 1], steps[..n]) && Last(run[..n + 1]) == run[n]
      && Enabled(run[n], steps[n]) && Last(run) == Apply(run[n], steps[n])
  {
    var n := |steps| - 1;
    var run0, steps0 := run[..n + 1], steps[..n];
    forall i: nat | i < |steps0| ensures StepAt(run0, steps0, i) {
      assert StepAt(run, steps, i);
    }
    assert StepAt(run, steps, n);
  }

  /** How much of `p` the steps have replenished. */
  function Replenished(steps: seq<Step>, p: ProductId): nat {
    if steps == [] then 0 else Replenished(steps[..|steps| - 1], p) + ReplenishedBy(Last(steps), p)
  }

  function ReplenishedBy(step: Step, p: ProductId): nat {
    if step.Request? && step.request.ReplenishStep? && step.request.product == p then step.request.amount else 0
  }

  lemma CancelClaimSupply(s: State, req: nat)
    requires CanCancelClaim(s, req)
    ensures DoCancelClaim(s, req).supplied == s.supplied
  {
  }

  lemma RequestSupply(s: State, step: RequestStep)
    requires CanRequest(s, step) && !step.ReplenishStep?
    ensures DoRequest(s, step).supplied == s.supplied
  {
    if step.CancelClaimStep? { CancelClaimSupply(s, step.req); }
  }

  lemma DeliverySupply(s: State, step: DeliveryStep)
    requires CanDelivery(s, step)
    ensures DoDelivery(s, step).supplied == s.supplied
  {
    if step.CommitStep? { CommitMovesOn(s, step.h); }
  }

  lemma StepSupply(s: State, step: Step, p: ProductId)
    requires Enabled(s, step) && p in s.supplied
    ensures p in Apply(s, step).supplied && Apply(s, step).supplied[p] == s.supplied[p] + ReplenishedBy(step, p)
  {
    match step
    case Request(r) => if !r.ReplenishStep? { RequestSupply(s, r); }
    case Relay(r) =>
    case Delivery(d) => DeliverySupply(s, d);
    case Gateway(g) =>
  }

  lemma {:induction false} TraceSupply(run: seq<State>, steps: seq<Step>, p: ProductId)
    requires IsTrace(run, steps) && p in run[0].db.stock
    ensures p in Last(run).supplied && Last(run).supplied[p] == run[0].db.stock[p] + Replenished(steps, p)
  {
    if steps != [] {
      var n := |steps| - 1;
      TracePrefix(run, steps);
      TraceSupply(run[..n + 1], steps[..n], p);
      StepSupply(run[n], steps[n], p);
    }
  }

  lemma TraceIsRun(run: seq<State>, steps: seq<Step>)
    requires IsTrace(run, steps)
    ensures IsRun(run) && Reachable(Last(run))
  {
    forall i: nat | i + 1 < |run| ensures Follows(run, i) {
      assert StepAt(run, steps, i);
    }
    assert IsRun(run) && Last(run) == Last(run);
  }

  // ---------- stock ----------

  /** At the end of every run, stock is not negative, and stock plus what orders hold is the initial
      stock plus every replenishment. What an order holds follows from its row; a cancelled order
      holds at most a tail of its lines, which is what its restore has not given back. */
  lemma StockIsExact(run: seq<State>, steps: seq<Step>, p: ProductId)
    requires IsTrace(run, steps) && p in run[0].db.stock
    ensures var s := Last(run);
      && p in s.db.stock && s.db.stock[p] >= 0
      && s.db.stock[p] + HeldTotal(s.audit, p) == run[0].db.stock[p] + Replenished(steps, p)
      && |s.audit| == |s.db.orders|
      && forall o :: 0 <= o < |s.db.orders| ==> HoldsWhatItShould(s.db, s.audit, o)
  {
    TraceIsRun(run, steps);
    TraceSupply(run, steps, p);
    ReachableInv(Last(run));
  }

  /** A cancelled order keeps stock only while its restore runs, after the restore crashed,
      or when the cancel had read PENDING and claimed an order that was RESERVED by then. */
  lemma CancelledStockIsExplained(s: State, o: OrderId)
    requires Reachable(s) && o < |s.db.orders| && s.db.orders[o].status == CANCELLED
    ensures |s.audit| == |s.db.orders|
    ensures s.audit[o].held != [] ==>
      || (exists r :: Restores(s, r, o) && s.cancels[r].remaining == s.audit[o].held)
      || s.audit[o].loss == Some(RestoreCrashed)
      || (s.audit[o].loss == Some(ReadPendingClaimedReserved) && s.audit[o].held == s.db.orders[o].lines)
  {
    ReachableInv(s);
    assert HoldExplained(s, o);
    if s.audit[o].held != [] && s.audit[o].loss.None? {
      var r :| Restores(s, r, o);
      assert CancelOk(s, r);
      assert Restores(s, r, o) && s.cancels[r].remaining == s.audit[o].held;
    } else if s.audit[o].loss.Some? {
      assert s.audit[o].loss.value.RestoreCrashed? || s.audit[o].loss.value.ReadPendingClaimedReserved?;
    }
  }

  /** What a successful claim does to the order's stock, if nobody was restoring it before. */
  lemma ClaimLeaks(s: State, req: nat)
    requires CanCancelClaim(s, req) && ClaimCancel(s.db, s.cancels[req].order).Ok?
    requires CancelOk(s, req) && HoldsWhatItShould(s.db, s.audit, s.cancels[req].order)
    requires forall r :: !Restores(s, r, s.cancels[req].order)
    ensures var o, s' := s.cancels[req].order, DoCancelClaim(s, req);
      (s'.audit[o].held != [] && !exists r :: Restores(s', r, o)) <==>
      (!s.cancels[req].wasReserved && s.db.orders[o].status == RESERVED && s.db.orders[o].lines != [])
  {
    var o, s' := s.cancels[req].order, DoCancelClaim(s, req);
    forall r | Restores(s', r, o) ensures r == req {
      assert !Restores(s, r, o);
    }
    if s.cancels[req].wasReserved && s.db.orders[o].lines != [] {
      assert Restores(s', req, o);
    }
  }

  /** A successful claim leaves the order's stock without anyone to restore it exactly when
      the request had read PENDING and the order is RESERVED at the claim. */
  lemma ClaimLeaksIff(s: State, req: nat)
    requires Reachable(s) && CanCancelClaim(s, req) && ClaimCancel(s.db, s.cancels[req].order).Ok?
    ensures var o, s' := s.cancels[req].order, DoCancelClaim(s, req);
      (s'.audit[o].held != [] && !exists r :: Restores(s', r, o)) <==>
      (!s.cancels[req].wasReserved && s.db.orders[o].status == RESERVED && s.db.orders[o].lines != [])
  {
    ReachableInv(s);
    var o := s.cancels[req].order;
    assert CancelOk(s, req) && HoldsWhatItShould(s.db, s.audit, o);
    NobodyRestores(s, o);
    ClaimLeaks(s, req);
  }

  // ---------- a leak is for good ----------

  /** The order is cancelled and its stock has been lost track of. */
  predicate HasLeaked(s: State, o: OrderId) {
    o < |s.db.orders| && o < |s.audit| && s.db.orders[o].status == CANCELLED && s.audit[o].loss.Some?
  }

  predicate SameLoss(a: seq<Audit>, b: seq<Audit>, o: OrderId)
    requires o < |a| && o < |b|
  {
    b[o].loss == a[o].loss && b[o].held == a[o].held
  }

  /** A request that restores stock is not about an order that has leaked. */
  lemma RestoringIsNotLeaked(s: State, req: nat, o: OrderId)
    requires CancelsOk(s) && req in s.cancels && s.cancels[req].CancelRestoring? && HasLeaked(s, o)
    ensures s.cancels[req].order != o
  {
    assert CancelOk(s, req);
  }

  lemma CancelClaimKeepsLoss(s: State, req: nat, o: OrderId)
    requires CanCancelClaim(s, req) && HasLeaked(s, o)
    ensures |DoCancelClaim(s, req).audit| == |s.audit| && SameLoss(s.audit, DoCancelClaim(s, req).audit, o)
  {
  }

  lemma RequestKeepsLoss(s: State, step: RequestStep, o: OrderId)
    requires CancelsOk(s) && CanRequest(s, step) && HasLeaked(s, o)
    ensures |s.audit| <= |DoRequest(s, step).audit| && SameLoss(s.audit, DoRequest(s, step).audit, o)
  {
    match step
    case CancelClaimStep(req) => CancelClaimKeepsLoss(s, req, o);
    case CancelRestoreStep(req) => RestoringIsNotLeaked(s, req, o);
    case CancelCrashStep(req) =>
      if s.cancels[req].CancelRestoring? { RestoringIsNotLeaked(s, req, o); }
    case _ =>
  }

  lemma CommitKeepsLoss(s: State, h: nat, o: OrderId)
    requires BrokerOk(s) && CanCommit(s, h) && HasLeaked(s, o)
    ensures |DoCommit(s, h).audit| == |s.audit| && SameLoss(s.audit, DoCommit(s, h).audit, o)
  {
    assert HandlerOk(s, h);
    if Commits(s, h) {
      CommitMoves(s, h);
    } else {
      RollbackIsGoto(s, h);
    }
  }

  lemma DeliveryKeepsLoss(s: State, step: DeliveryStep, o: OrderId)
    requires BrokerOk(s) && CanDelivery(s, step) && HasLeaked(s, o)
    ensures |DoDelivery(s, step).audit| == |s.audit| && SameLoss(s.audit, DoDelivery(s, step).audit, o)
  {
    if step.CommitStep? { CommitKeepsLoss(s, step.h, o); }
  }

  /** The gateway writes down answers, calls and takeovers, never what an order holds. */
  lemma AuditKeepsLoss(s: State, s': State, q: OrderId, o: OrderId)
    requires q < |s.audit| && |s'.audit| == |s.audit| && s'.audit == s.audit[q := s'.audit[q]]
    requires SameLoss(s.audit, s'.audit, q) && o < |s.audit|
    ensures SameLoss(s.audit, s'.audit, o)
  {
  }

  lemma ReadLedgerKeepsLoss(s: State, h: nat, o: OrderId)
    requires AtPayment(s, h) && o < |s.audit|
    ensures |DoReadLedger(s, h).audit| == |s.audit| && SameLoss(s.audit, DoReadLedger(s, h).audit, o)
  {
    AuditKeepsLoss(s, DoReadLedger(s, h), EventOf(s, h).order, o);
  }

  lemma RecordKeepsLoss(s: State, h: nat, o: OrderId)
    requires AtPayment(s, h) && s.handlers[h].pc.Charged? && o < |s.audit|
    ensures |DoRecord(s, h).audit| == |s.audit| && SameLoss(s.audit, DoRecord(s, h).audit, o)
  {
    AuditKeepsLoss(s, DoRecord(s, h), EventOf(s, h).order, o);
  }

  lemma GatewayKeepsLoss(s: State, step: GatewayStep, o: OrderId)
    requires CanGateway(s, step) && o < |s.audit|
    ensures |DoGateway(s, step).audit| == |s.audit| && SameLoss(s.audit, DoGateway(s, step).audit, o)
  {
    match step
    case ClaimLedgerStep(h) => assert DoClaimLedger(s, h).audit == s.audit;
    case ReadLedgerStep(h) => ReadLedgerKeepsLoss(s, h, o);
    case JudgeStaleStep(h) => AuditKeepsLoss(s, DoJudgeStale(s, h), EventOf(s, h).order, o);
    case ChargeStep(h, result) => AuditKeepsLoss(s, DoCharge(s, h, result), EventOf(s, h).order, o);
    case ChargeFailsStep(h) => AuditKeepsLoss(s, DoChargeFails(s, h), EventOf(s, h).order, o);
    case RecordStep(h) => RecordKeepsLoss(s, h, o);
  }

  lemma StepKeepsLoss(s: State, step: Step, o: OrderId)
    requires CancelsOk(s) && BrokerOk(s) && Enabled(s, step) && HasLeaked(s, o)
    ensures |s.audit| <= |Apply(s, step).audit| && SameLoss(s.audit, Apply(s, step).audit, o)
  {
    match step
    case Request(r) => RequestKeepsLoss(s, r, o);
    case Relay(r) =>
    case Delivery(d) => DeliveryKeepsLoss(s, d, o);
    case Gateway(g) => GatewayKeepsLoss(s, g, o);
  }

  /** Once leaked, always leaked, with the same stock. */
  ghost predicate LeakStays(s: State, s': State, o: OrderId) {
    HasLeaked(s, o) ==> HasLeaked(s', o) && SameLoss(s.audit, s'.audit, o)
  }

  lemma StepLeakStays(s: State, step: Step, o: OrderId)
    requires Inv(s) && Enabled(s, step)
    ensures LeakStays(s, Apply(s, step), o)
  {
    if HasLeaked(s, o) {
      StepLater(s, step);
      assert OrderLater(s.db, Apply(s, step).db, o);
      StepKeepsLoss(s, step, o);
    }
  }

  ghost predicate LeakStaysAt(run: seq<State>, k: nat, o: OrderId)
    requires k + 1 < |run|
  {
    LeakStays(run[k], run[k + 1], o)
  }

  lemma RunLeakStays(run: seq<State>, k: nat, o: OrderId)
    requires IsRun(run) && k + 1 < |run|
    ensures LeakStaysAt(run, k, o)
  {
    RunKeepsInv(run, k);
    assert Follows(run, k);
    var step :| Enabled(run[k], step) && run[k + 1] == Apply(run[k], step);
    StepLeakStays(run[k], step, o);
  }

  lemma {:induction false} ChainLeaked(run: seq<State>, i: nat, j: nat, o: OrderId)
    requires forall k: nat :: k + 1 < |run| ==> LeakStaysAt(run, k, o)
    requires i <= j < |run| && HasLeaked(run[i], o)
    ensures HasLeaked(run[j], o) && SameLoss(run[i].audit, run[j].audit, o)
  {
    if i < j {
      ChainLeaked(run, i, j - 1, o);
      assert LeakStaysAt(run, j - 1, o);
    }
  }

  /** Stock that a cancelled order has leaked is never given back: whatever happens later, the order stays CANCELLED
      and holds exactly what it held. */
  lemma LeakIsForGood(run: seq<State>, i: nat, j: nat, o: OrderId)
    requires IsRun(run) && i <= j < |run| && HasLeaked(run[i], o)
    ensures HasLeaked(run[j], o) && SameLoss(run[i].audit, run[j].audit, o)
  {
    forall k: nat | k + 1 < |run| ensures LeakStaysAt(run, k, o) { RunLeakStays(run, k, o); }
    ChainLeaked(run, i, j, o);
  }
}
