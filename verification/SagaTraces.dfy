/** What the saga's tables and history owe to the steps of a run: who created, paid, cancelled and charged. */
module SagaTraces {
  import opened Common
  import opened OrderStateMachine
  import opened Stock
  import opened Tables
  import opened Saga
  import opened SagaInvariant
  import opened SagaTables
  import opened SagaSteps
  import opened SagaDeliveries
  import opened SagaTheorems
  import OrderCache

  lemma TraceInv(run: seq<State>, steps: seq<Step>)
    requires IsTrace(run, steps)
    ensures Inv(Last(run))
  {
    TraceIsRun(run, steps);
    ReachableInv(Last(run));
  }

  // ---------- orders are what was created ----------

  type Purchase = (UserId, seq<Line>)

  function Purchases(orders: seq<Order>): seq<Purchase> {
    seq(|orders|, i requires 0 <= i < |orders| => (orders[i].user, orders[i].lines))
  }

  function CreatedBy(step: Step): seq<Purchase> {
    if step.Request? && step.request.CreateStep? then [(step.request.user, step.request.lines)] else []
  }

  function Creates(steps: seq<Step>): seq<Purchase> {
    if steps == [] then [] else Creates(steps[..|steps| - 1]) + CreatedBy(Last(steps))
  }

  lemma StepPurchases(s: State, step: Step)
    requires Inv(s) && Enabled(s, step)
    ensures Purchases(Apply(s, step).db.orders) == Purchases(s.db.orders) + CreatedBy(step)
  {
    var s' := Apply(s, step);
    StepLater(s, step);
    if CreatedBy(step) == [] { OrderCache.OnlyCreateAddsOrders(s, step); }
    forall o | 0 <= o < |s.db.orders|
      ensures s'.db.orders[o].user == s.db.orders[o].user && s'.db.orders[o].lines == s.db.orders[o].lines
    {
      assert OrderLater(s.db, s'.db, o);
    }
  }

  /** The orders are exactly what was checked out, in order, with their owner and all their lines for ever. */
  lemma {:induction false} OrdersAreCreates(run: seq<State>, steps: seq<Step>)
    requires IsTrace(run, steps)
    ensures Purchases(Last(run).db.orders) == Creates(steps)
  {
    if steps != [] {
      var n := |steps| - 1;
      TracePrefix(run, steps);
      TraceInv(run[..n + 1], steps[..n]);
      OrdersAreCreates(run[..n + 1], steps[..n]);
      StepPurchases(run[n], steps[n]);
    }
  }

  // ---------- only owners pay ----------

  predicate Paid(s: State, o: OrderId) {
    o < |s.db.orders| && s.db.orders[o].paymentInitiated
  }

  lemma WorkKeepsPaid(s: State, h: nat, o: OrderId)
    requires CanCommit(s, h) && Work(s, h).Ok? && o < |s.db.orders|
    ensures o < |Work(s, h).value.orders|
    ensures Work(s, h).value.orders[o].paymentInitiated == s.db.orders[o].paymentInitiated
  {
  }

  lemma CommitKeepsPaid(s: State, h: nat, o: OrderId)
    requires CanCommit(s, h) && Paid(DoCommit(s, h), o)
    ensures Paid(s, o)
  {
    OrderCache.CommitAddsNoOrders(s, h);
    if Work(s, h).Ok? { WorkKeepsPaid(s, h, o); }
  }

  lemma DeliveryKeepsPaid(s: State, step: DeliveryStep, o: OrderId)
    requires CanDelivery(s, step) && Paid(DoDelivery(s, step), o)
    ensures Paid(s, o)
  {
    if step.CommitStep? { CommitKeepsPaid(s, step.h, o); }
  }

  lemma GatewayKeepsOrders(s: State, step: GatewayStep)
    requires CanGateway(s, step)
    ensures DoGateway(s, step).db.orders == s.db.orders
  {
    match step
    case ClaimLedgerStep(h) =>
    case ReadLedgerStep(h) =>
    case JudgeStaleStep(h) =>
    case ChargeStep(h, result) =>
    case ChargeFailsStep(h) =>
    case RecordStep(h) =>
  }

  lemma CancelClaimKeepsPaid(s: State, req: nat, o: OrderId)
    requires CanCancelClaim(s, req) && Paid(DoCancelClaim(s, req), o)
    ensures Paid(s, o)
  {
  }

  /** Step `step` is the owner's payment of an order that awaits it. */
  predicate IsPaymentOf(s: State, step: Step, o: OrderId) {
    && o < |s.db.orders| && step == Request(PayStep(o, s.db.orders[o].user))
    && s.db.orders[o].status == RESERVED && !s.db.orders[o].paymentInitiated
  }

  lemma RequestPays(s: State, step: RequestStep, o: OrderId)
    requires CanRequest(s, step) && !Paid(s, o) && Paid(DoRequest(s, step), o)
    ensures IsPaymentOf(s, Request(step), o)
  {
    if step.CancelClaimStep? { CancelClaimKeepsPaid(s, step.req, o); }
  }

  /** No step but its owner's payment marks an order as paid for. */
  lemma StepPays(s: State, step: Step, o: OrderId)
    requires Enabled(s, step) && !Paid(s, o) && Paid(Apply(s, step), o)
    ensures IsPaymentOf(s, step, o)
  {
    match step
    case Request(r) => RequestPays(s, r, o);
    case Relay(r) =>
    case Delivery(d) => DeliveryKeepsPaid(s, d, o);
    case Gateway(g) => GatewayKeepsOrders(s, g);
  }

  ghost predicate WasPaid(run: seq<State>, steps: seq<Step>, o: OrderId)
    requires |run| == |steps| + 1
  {
    exists k: nat :: k < |steps| && IsPaymentOf(run[k], steps[k], o)
  }

  lemma PaidEarlier(run: seq<State>, steps: seq<Step>, m: nat, o: OrderId)
    requires |run| == |steps| + 1 && m < |steps| && WasPaid(run[..m + 1], steps[..m], o)
    ensures WasPaid(run, steps, o)
  {
    var k: nat :| k < m && IsPaymentOf(run[..m + 1][k], steps[..m][k], o);
    assert IsPaymentOf(run[k], steps[k], o);
  }

  /** Whoever owns the order has paid it himself, when it was RESERVED and not paid before. */
  lemma {:induction false} OnlyOwnersPay(run: seq<State>, steps: seq<Step>, o: OrderId)
    requires IsTrace(run, steps) && Paid(Last(run), o)
    ensures WasPaid(run, steps, o)
  {
    if steps != [] {
      var n := |steps| - 1;
      TracePrefix(run, steps);
      if Paid(run[n], o) {
        OnlyOwnersPay(run[..n + 1], steps[..n], o);
        PaidEarlier(run, steps, n, o);
      } else {
        StepPays(run[n], steps[n], o);
      }
    }
  }

  // ---------- only owners cancel ----------

  /** Step `step` is the read of cancel request `req` by the owner of a cancellable order; `wasReserved` says which
      status it saw. */
  predicate IsReadOf(s: State, step: Step, req: nat, o: OrderId, wasReserved: bool) {
    && o < |s.db.orders| && step == Request(CancelReadStep(req, o, s.db.orders[o].user))
    && (if wasReserved then s.db.orders[o].status == RESERVED && !s.db.orders[o].paymentInitiated
        else s.db.orders[o].status == PENDING)
  }

  predicate Reading(s: State, req: nat) {
    req in s.cancels && s.cancels[req].CancelReading?
  }

  lemma CancelClaimReads(s: State, req: nat, q: nat)
    requires CanCancelClaim(s, req) && Reading(DoCancelClaim(s, req), q)
    ensures Reading(s, q) && s.cancels[q] == DoCancelClaim(s, req).cancels[q]
  {
  }

  lemma RequestReads(s: State, step: RequestStep, req: nat)
    requires CanRequest(s, step) && Reading(DoRequest(s, step), req)
    ensures var c := DoRequest(s, step).cancels[req];
      (Reading(s, req) && s.cancels[req] == c) || IsReadOf(s, Request(step), req, c.order, c.wasReserved)
  {
    if step.CancelClaimStep? { CancelClaimReads(s, step.req, req); }
  }

  lemma StepReads(s: State, step: Step, req: nat)
    requires Enabled(s, step) && Reading(Apply(s, step), req)
    ensures var c := Apply(s, step).cancels[req];
      (Reading(s, req) && s.cancels[req] == c) || IsReadOf(s, step, req, c.order, c.wasReserved)
  {
    match step
    case Request(r) => RequestReads(s, r, req);
    case Relay(r) =>
    case Delivery(d) => DeliveryKeepsCancels(s, d);
    case Gateway(g) => GatewayKeepsCancels(s, g);
  }

  lemma DeliveryKeepsCancels(s: State, step: DeliveryStep)
    requires CanDelivery(s, step)
    ensures DoDelivery(s, step).cancels == s.cancels
  {
    if step.CommitStep? {
      ConcludeKeepsCancels(s, step.h, FinishRunOnce(InboxKeyOf(s.db, s.handlers[step.h].message), Work(s, step.h)));
    }
  }

  lemma ConcludeKeepsCancels(s: State, h: nat, outcome: TxOutcome)
    requires h in s.handlers && s.handlers[h].message < |s.db.outbox|
    ensures Conclude(s, h, outcome).cancels == s.cancels
  {
  }

  lemma GatewayKeepsCancels(s: State, step: GatewayStep)
    requires CanGateway(s, step)
    ensures DoGateway(s, step).cancels == s.cancels
  {
    match step
    case ClaimLedgerStep(h) =>
    case ReadLedgerStep(h) =>
    case JudgeStaleStep(h) =>
    case ChargeStep(h, result) =>
    case ChargeFailsStep(h) =>
    case RecordStep(h) =>
  }

  ghost predicate WasRead(run: seq<State>, steps: seq<Step>, req: nat, o: OrderId, wasReserved: bool)
    requires |run| == |steps| + 1
  {
    exists k: nat :: k < |steps| && IsReadOf(run[k], steps[k], req, o, wasReserved)
  }

  lemma ReadEarlier(run: seq<State>, steps: seq<Step>, m: nat, req: nat, o: OrderId, wasReserved: bool)
    requires |run| == |steps| + 1 && m < |steps| && WasRead(run[..m + 1], steps[..m], req, o, wasReserved)
    ensures WasRead(run, steps, req, o, wasReserved)
  {
    var k: nat :| k < m && IsReadOf(run[..m + 1][k], steps[..m][k], req, o, wasReserved);
    assert IsReadOf(run[k], steps[k], req, o, wasReserved);
  }

  /** A cancel request in flight was begun by the owner, and `wasReserved` is what it saw then. */
  lemma {:induction false} CancelsWereRead(run: seq<State>, steps: seq<Step>, req: nat)
    requires IsTrace(run, steps) && Reading(Last(run), req)
    ensures WasRead(run, steps, req, Last(run).cancels[req].order, Last(run).cancels[req].wasReserved)
  {
    if steps != [] {
      var n := |steps| - 1;
      var c := Last(run).cancels[req];
      TracePrefix(run, steps);
      StepReads(run[n], steps[n], req);
      if Reading(run[n], req) && run[n].cancels[req] == c {
        CancelsWereRead(run[..n + 1], steps[..n], req);
        ReadEarlier(run, steps, n, req, c.order, c.wasReserved);
      }
    }
  }

  predicate IsCancelled(s: State, o: OrderId) {
    o < |s.db.orders| && s.db.orders[o].status == CANCELLED
  }

  /** Step `step` is the claim of a request that has read order `o`, which is cancellable. */
  predicate IsCancelOf(s: State, step: Step, o: OrderId) {
    && step.Request? && step.request.CancelClaimStep? && Reading(s, step.request.req)
    && s.cancels[step.request.req].order == o && o < |s.db.orders|
    && (s.db.orders[o].status == PENDING || (s.db.orders[o].status == RESERVED && !s.db.orders[o].paymentInitiated))
  }

  lemma CommitKeepsUncancelled(s: State, h: nat, o: OrderId)
    requires BrokerOk(s) && CanCommit(s, h) && IsCancelled(DoCommit(s, h), o)
    ensures IsCancelled(s, o)
  {
    assert HandlerOk(s, h);
    if Commits(s, h) {
      CommitMoves(s, h);
      assert CancelUnaffected(s, DoCommit(s, h), o) || s.db.orders[o].status == CANCELLED;
    } else {
      RollbackIsGoto(s, h);
    }
  }

  lemma CancelClaimCancels(s: State, req: nat, o: OrderId)
    requires CanCancelClaim(s, req) && !IsCancelled(s, o) && IsCancelled(DoCancelClaim(s, req), o)
    ensures IsCancelOf(s, Request(CancelClaimStep(req)), o)
  {
  }

  lemma RequestCancels(s: State, step: RequestStep, o: OrderId)
    requires CanRequest(s, step) && !IsCancelled(s, o) && IsCancelled(DoRequest(s, step), o)
    ensures IsCancelOf(s, Request(step), o)
  {
    if step.CancelClaimStep? { CancelClaimCancels(s, step.req, o); }
  }

  lemma StepCancels(s: State, step: Step, o: OrderId)
    requires BrokerOk(s) && Enabled(s, step) && !IsCancelled(s, o) && IsCancelled(Apply(s, step), o)
    ensures IsCancelOf(s, step, o)
  {
    match step
    case Request(r) => RequestCancels(s, r, o);
    case Relay(r) =>
    case Delivery(d) => if d.CommitStep? { CommitKeepsUncancelled(s, d.h, o); }
    case Gateway(g) => GatewayKeepsOrders(s, g);
  }

  /** Step `n` cancels order `o`, for a request whose owner's read was step `k`. */
  predicate CancelledAt(run: seq<State>, steps: seq<Step>, o: OrderId, k: nat, n: nat, wasReserved: bool)
    requires |run| == |steps| + 1
  {
    k < n < |steps| && IsCancelOf(run[n], steps[n], o) &&
    IsReadOf(run[k], steps[k], steps[n].request.req, o, wasReserved)
  }

  ghost predicate WasCancelled(run: seq<State>, steps: seq<Step>, o: OrderId)
    requires |run| == |steps| + 1
  {
    exists k, n, wasReserved :: CancelledAt(run, steps, o, k, n, wasReserved)
  }

  lemma CancelledEarlier(run: seq<State>, steps: seq<Step>, m: nat, o: OrderId)
    requires |run| == |steps| + 1 && m < |steps|
    requires WasCancelled(run[..m + 1], steps[..m], o)
    ensures WasCancelled(run, steps, o)
  {
    var k, n, wasReserved :| CancelledAt(run[..m + 1], steps[..m], o, k, n, wasReserved);
    assert CancelledAt(run, steps, o, k, n, wasReserved);
  }

  lemma CancelledNow(run: seq<State>, steps: seq<Step>, o: OrderId, wasReserved: bool)
    requires |run| == |steps| + 1 && steps != []
    requires var n := |steps| - 1;
      && IsCancelOf(run[n], steps[n], o)
      && WasRead(run[..n + 1], steps[..n], steps[n].request.req, o, wasReserved)
    ensures WasCancelled(run, steps, o)
  {
    var n := |steps| - 1;
    var k: nat :| k < n && IsReadOf(run[..n + 1][k], steps[..n][k], steps[n].request.req, o, wasReserved);
    assert CancelledAt(run, steps, o, k, n, wasReserved);
  }

  lemma LastStepCancels(run: seq<State>, steps: seq<Step>, o: OrderId)
    requires IsTrace(run, steps) && steps != [] && IsCancelled(Last(run), o) && !IsCancelled(run[|steps| - 1], o)
    ensures IsCancelOf(run[|steps| - 1], Last(steps), o)
  {
    var n := |steps| - 1;
    TracePrefix(run, steps);
    TraceInv(run[..n + 1], steps[..n]);
    StepCancels(run[n], steps[n], o);
  }

  lemma LastClaimWasRead(run: seq<State>, steps: seq<Step>, o: OrderId)
    requires IsTrace(run, steps) && steps != [] && IsCancelOf(run[|steps| - 1], Last(steps), o)
    ensures WasCancelled(run, steps, o)
  {
    var n := |steps| - 1;
    var req := steps[n].request.req;
    TracePrefix(run, steps);
    CancelsWereRead(run[..n + 1], steps[..n], req);
    CancelledNow(run, steps, o, run[n].cancels[req].wasReserved);
  }

  /** An order is cancelled only by the claim of a request that its owner began. */
  lemma {:induction false} OnlyOwnersCancel(run: seq<State>, steps: seq<Step>, o: OrderId)
    requires IsTrace(run, steps) && IsCancelled(Last(run), o)
    ensures WasCancelled(run, steps, o)
  {
    if steps != [] {
      var n := |steps| - 1;
      TracePrefix(run, steps);
      if IsCancelled(run[n], o) {
        OnlyOwnersCancel(run[..n + 1], steps[..n], o);
        CancelledEarlier(run, steps, n, o);
      } else {
        LastStepCancels(run, steps, o);
        LastClaimWasRead(run, steps, o);
      }
    }
  }

  /** A cancel leaks the order's stock exactly when its own read saw PENDING and its claim meets RESERVED. */
  lemma LeaksIffReadPending(run: seq<State>, steps: seq<Step>, req: nat)
    requires IsTrace(run, steps) && CanCancelClaim(Last(run), req)
    requires ClaimCancel(Last(run).db, Last(run).cancels[req].order).Ok?
    ensures var s, o, wasReserved := Last(run), Last(run).cancels[req].order, Last(run).cancels[req].wasReserved;
      var s' := DoCancelClaim(s, req);
      && WasRead(run, steps, req, o, wasReserved)
      && (s'.audit[o].held != [] && !(exists r :: Restores(s', r, o)) <==>
            !wasReserved && s.db.orders[o].status == RESERVED && s.db.orders[o].lines != [])
  {
    TraceIsRun(run, steps);
    ClaimLeaksIff(Last(run), req);
    CancelsWereRead(run, steps, req);
  }

  // ---------- the payment history is honest ----------

  /** Delivery `h` is about order `o`. */
  predicate Concerns(s: State, h: nat, o: OrderId) {
    h in s.handlers && s.handlers[h].message < |s.db.outbox| && EventOf(s, h).order == o
  }

  /** Calls of the provider for order `o`, answered or not. */
  function CallsBy(s: State, step: Step, o: OrderId): nat {
    if step.Gateway? && (step.gateway.ChargeStep? || step.gateway.ChargeFailsStep?) && Concerns(s, step.gateway.h, o)
    then 1 else 0
  }

  /** Claims of order `o` taken over: undecided, and more than 30 seconds old. */
  function TakeoversBy(s: State, step: Step, o: OrderId): nat {
    if step.Gateway? && step.gateway.JudgeStaleStep? && Concerns(s, step.gateway.h, o) && o in s.db.ledger &&
       s.db.ledger[o].authorized.None? && s.db.ledger[o].createdAt + 30 < s.now
    then 1 else 0
  }

  /** What `authorize` returns for order `o`: the recorded decision, or what the provider has just said. */
  function AnswersBy(s: State, step: Step, o: OrderId): set<PaymentResult> {
    if !step.Gateway? || !Concerns(s, step.gateway.h, o) then {}
    else
      match step.gateway
      case ReadLedgerStep(h) =>
        if o in s.db.ledger && Decision(s.db.ledger[o]).Some? then {Decision(s.db.ledger[o]).value} else {}
      case RecordStep(h) => if s.handlers[h].pc.Charged? then {s.handlers[h].pc.result} else {}
      case _ => {}
  }

  /** Work committed under an inbox key. */
  function CommitsBy(s: State, step: Step, key: InboxKey): nat {
    if step.Delivery? && step.delivery.CommitStep? && CanCommit(s, step.delivery.h) &&
       InboxKeyOf(s.db, s.handlers[step.delivery.h].message) == key && key !in s.db.inbox &&
       Work(s, step.delivery.h).Ok?
    then 1 else 0
  }

  function CountCalls(run: seq<State>, steps: seq<Step>, o: OrderId): nat
    requires |run| == |steps| + 1
  {
    if steps == [] then 0
    else var n := |steps| - 1; CountCalls(run[..n + 1], steps[..n], o) + CallsBy(run[n], steps[n], o)
  }

  function CountTakeovers(run: seq<State>, steps: seq<Step>, o: OrderId): nat
    requires |run| == |steps| + 1
  {
    if steps == [] then 0
    else var n := |steps| - 1; CountTakeovers(run[..n + 1], steps[..n], o) + TakeoversBy(run[n], steps[n], o)
  }

  function AnswersGiven(run: seq<State>, steps: seq<Step>, o: OrderId): set<PaymentResult>
    requires |run| == |steps| + 1
  {
    if steps == [] then {}
    else var n := |steps| - 1; AnswersGiven(run[..n + 1], steps[..n], o) + AnswersBy(run[n], steps[n], o)
  }

  function CountCommits(run: seq<State>, steps: seq<Step>, key: InboxKey): nat
    requires |run| == |steps| + 1
  {
    if steps == [] then 0
    else var n := |steps| - 1; CountCommits(run[..n + 1], steps[..n], key) + CommitsBy(run[n], steps[n], key)
  }

  /** The history of order `o`, empty before the order exists. */
  function EntryOf(s: State, o: OrderId): Audit {
    if o < |s.audit| then s.audit[o] else Audit([], None, 0, 0, {})
  }

  predicate SameEntry(a: Audit, b: Audit) {
    b.providerCalls == a.providerCalls && b.takeovers == a.takeovers && b.answers == a.answers
  }

  /** The history of order `o` after a step, in terms of the step. */
  predicate Accounted(s: State, step: Step, s': State, o: OrderId) {
    var a, b := EntryOf(s, o), EntryOf(s', o);
    && b.providerCalls == a.providerCalls + CallsBy(s, step, o)
    && b.takeovers == a.takeovers + TakeoversBy(s, step, o)
    && b.answers == a.answers + AnswersBy(s, step, o)
  }

  lemma CancelClaimSameEntry(s: State, req: nat, o: OrderId)
    requires CanCancelClaim(s, req)
    ensures SameEntry(EntryOf(s, o), EntryOf(DoCancelClaim(s, req), o))
  {
  }

  lemma RequestSameEntry(s: State, step: RequestStep, o: OrderId)
    requires CanRequest(s, step)
    ensures SameEntry(EntryOf(s, o), EntryOf(DoRequest(s, step), o))
  {
    if step.CancelClaimStep? { CancelClaimSameEntry(s, step.req, o); }
  }

  lemma DeliverySameEntry(s: State, step: DeliveryStep, o: OrderId)
    requires BrokerOk(s) && CanDelivery(s, step)
    ensures SameEntry(EntryOf(s, o), EntryOf(DoDelivery(s, step), o))
  {
    match step
    case CommitStep(h) =>
      assert HandlerOk(s, h);
      if Commits(s, h) {
        CommitMoves(s, h);
        assert o < |s.audit| ==> SamePayments(s.audit, DoCommit(s, h).audit, o);
      } else {
        RollbackIsGoto(s, h);
      }
    case _ =>
  }

  /** A step that rewrites the history of one order, `q`, accounts for every order if it accounts for that one. */
  lemma OthersAccounted(s: State, step: Step, s': State, q: OrderId, o: OrderId)
    requires q < |s.audit| && |s'.audit| == |s.audit| && s'.audit == s.audit[q := s'.audit[q]]
    requires Accounted(s, step, s', q)
    requires o != q ==> CallsBy(s, step, o) == 0 && TakeoversBy(s, step, o) == 0 && AnswersBy(s, step, o) == {}
    ensures Accounted(s, step, s', o)
  {
    assert EntryOf(s, o).answers + {} == EntryOf(s, o).answers;
  }

  lemma ClaimAccounted(s: State, h: nat, o: OrderId)
    requires AtPayment(s, h)
    ensures Accounted(s, Gateway(ClaimLedgerStep(h)), DoClaimLedger(s, h), o)
  {
    assert DoClaimLedger(s, h).audit == s.audit && EntryOf(s, o).answers + {} == EntryOf(s, o).answers;
  }

  lemma ReadAccounted(s: State, h: nat, o: OrderId)
    requires AtPayment(s, h)
    ensures Accounted(s, Gateway(ReadLedgerStep(h)), DoReadLedger(s, h), o)
  {
    var q := EventOf(s, h).order;
    assert EntryOf(s, q).answers + {} == EntryOf(s, q).answers;
    OthersAccounted(s, Gateway(ReadLedgerStep(h)), DoReadLedger(s, h), q, o);
  }

  lemma JudgeAccounted(s: State, h: nat, o: OrderId)
    requires AtPayment(s, h)
    ensures Accounted(s, Gateway(JudgeStaleStep(h)), DoJudgeStale(s, h), o)
  {
    var q := EventOf(s, h).order;
    assert EntryOf(s, q).answers + {} == EntryOf(s, q).answers;
    OthersAccounted(s, Gateway(JudgeStaleStep(h)), DoJudgeStale(s, h), q, o);
  }

  lemma ChargeAccounted(s: State, h: nat, result: PaymentResult, o: OrderId)
    requires AtPayment(s, h)
    ensures Accounted(s, Gateway(ChargeStep(h, result)), DoCharge(s, h, result), o)
    ensures Accounted(s, Gateway(ChargeFailsStep(h)), DoChargeFails(s, h), o)
  {
    var q := EventOf(s, h).order;
    assert EntryOf(s, q).answers + {} == EntryOf(s, q).answers;
    OthersAccounted(s, Gateway(ChargeStep(h, result)), DoCharge(s, h, result), q, o);
    OthersAccounted(s, Gateway(ChargeFailsStep(h)), DoChargeFails(s, h), q, o);
  }

  lemma RecordAccounted(s: State, h: nat, o: OrderId)
    requires AtPayment(s, h) && s.handlers[h].pc.Charged?
    ensures Accounted(s, Gateway(RecordStep(h)), DoRecord(s, h), o)
  {
    OthersAccounted(s, Gateway(RecordStep(h)), DoRecord(s, h), EventOf(s, h).order, o);
  }

  lemma GatewayAccounts(s: State, step: GatewayStep, o: OrderId)
    requires CanGateway(s, step)
    ensures Accounted(s, Gateway(step), DoGateway(s, step), o)
  {
    match step
    case ClaimLedgerStep(h) => ClaimAccounted(s, h, o);
    case ReadLedgerStep(h) => ReadAccounted(s, h, o);
    case JudgeStaleStep(h) => JudgeAccounted(s, h, o);
    case ChargeStep(h, result) => ChargeAccounted(s, h, result, o);
    case ChargeFailsStep(h) => ChargeAccounted(s, h, Authorized, o);
    case RecordStep(h) => RecordAccounted(s, h, o);
  }

  lemma StepAccounts(s: State, step: Step, o: OrderId)
    requires BrokerOk(s) && Enabled(s, step)
    ensures Accounted(s, step, Apply(s, step), o)
  {
    assert EntryOf(s, o).answers + {} == EntryOf(s, o).answers;
    match step
    case Request(r) => RequestSameEntry(s, r, o);
    case Relay(r) =>
    case Delivery(d) => DeliverySameEntry(s, d, o);
    case Gateway(g) => GatewayAccounts(s, g, o);
  }

  /** The history counts exactly the provider calls and takeovers of the run, and holds exactly its answers. */
  lemma {:induction false} HistoryIsHonest(run: seq<State>, steps: seq<Step>, o: OrderId)
    requires IsTrace(run, steps)
    ensures EntryOf(Last(run), o).providerCalls == CountCalls(run, steps, o)
    ensures EntryOf(Last(run), o).takeovers == CountTakeovers(run, steps, o)
    ensures EntryOf(Last(run), o).answers == AnswersGiven(run, steps, o)
  {
    if steps != [] {
      var n := |steps| - 1;
      TracePrefix(run, steps);
      TraceInv(run[..n + 1], steps[..n]);
      HistoryIsHonest(run[..n + 1], steps[..n], o);
      StepAccounts(run[n], steps[n], o);
    }
  }

  /** Over every run: the provider is called for an order at most once and once more for each claim taken over, not at
      all if the order is cancelled, and no two callers of `authorize` are told different things. */
  lemma ProviderIsCalledOnce(run: seq<State>, steps: seq<Step>, o: OrderId)
    requires IsTrace(run, steps)
    ensures CountCalls(run, steps, o) <= 1 + CountTakeovers(run, steps, o)
    ensures IsCancelled(Last(run), o) ==> CountCalls(run, steps, o) == 0
    ensures forall a, b :: a in AnswersGiven(run, steps, o) && b in AnswersGiven(run, steps, o) ==> a == b
  {
    TraceIsRun(run, steps);
    HistoryIsHonest(run, steps, o);
    var i := |run| - 1;
    if o < |Last(run).audit| {
      ProviderCallsAreBounded(Last(run), o);
      forall a, b | a in AnswersGiven(run, steps, o) && b in AnswersGiven(run, steps, o) ensures a == b {
        PaymentAgreement(run, i, i, o, a, b);
      }
    }
    if IsCancelled(Last(run), o) { PayAndCancelExclude(run, i, i, o); }
  }

  // ---------- work is committed once ----------

  lemma ConcludeCommits(s: State, h: nat, key: InboxKey)
    requires CanCommit(s, h)
    ensures DoCommit(s, h).applied[key] == s.applied[key] + CommitsBy(s, Delivery(CommitStep(h)), key)
  {
    if Work(s, h).Ok? { WorkShape(s, h); }
  }

  lemma RequestKeepsApplied(s: State, step: RequestStep)
    requires CanRequest(s, step)
    ensures DoRequest(s, step).applied == s.applied
  {
    if step.CancelClaimStep? { CancelClaimFrame(s, step.req); }
  }

  lemma GatewayKeepsApplied(s: State, step: GatewayStep)
    requires CanGateway(s, step)
    ensures DoGateway(s, step).applied == s.applied
  {
    match step
    case ClaimLedgerStep(h) =>
    case ReadLedgerStep(h) =>
    case JudgeStaleStep(h) =>
    case ChargeStep(h, result) =>
    case ChargeFailsStep(h) =>
    case RecordStep(h) =>
  }

  lemma StepCommits(s: State, step: Step, key: InboxKey)
    requires Enabled(s, step)
    ensures Apply(s, step).applied[key] == s.applied[key] + CommitsBy(s, step, key)
  {
    match step
    case Request(r) => RequestKeepsApplied(s, r);
    case Relay(r) =>
    case Delivery(d) => if d.CommitStep? { ConcludeCommits(s, d.h, key); }
    case Gateway(g) => GatewayKeepsApplied(s, g);
  }

  lemma {:induction false} AppliedIsHonest(run: seq<State>, steps: seq<Step>, key: InboxKey)
    requires IsTrace(run, steps)
    ensures Last(run).applied[key] == CountCommits(run, steps, key)
  {
    if steps != [] {
      var n := |steps| - 1;
      TracePrefix(run, steps);
      AppliedIsHonest(run[..n + 1], steps[..n], key);
      StepCommits(run[n], steps[n], key);
    }
  }

  /** Over every run, work is committed under an inbox key exactly once if the key is recorded and never otherwise. */
  lemma CommittedExactlyOnce(run: seq<State>, steps: seq<Step>, key: InboxKey)
    requires IsTrace(run, steps)
    ensures CountCommits(run, steps, key) == if key in Last(run).db.inbox then 1 else 0
  {
    TraceIsRun(run, steps);
    AppliedIsHonest(run, steps, key);
    WorkIsAppliedOnce(Last(run), key);
  }
}
