/** Every step of the saga keeps the invariant. */
module SagaSteps {
  import opened Common
  import opened OrderStateMachine
  import opened Stock
  import opened Tables
  import opened Saga
  import opened SagaInvariant
  import opened SagaTables

  // ---------- what a concern needs in order to survive a step that is not about it ----------

  /** Order `o` is untouched as far as cancellation is concerned. */
  ghost predicate CancelUnaffected(s: State, s': State, o: OrderId)
    requires o < |s.db.orders| && o < |s.audit| && o < |s'.db.orders| && o < |s'.audit|
  {
    && RowEvolves(s.db.orders[o], s'.db.orders[o])
    && (s'.db.orders[o].status == CANCELLED ==> s.db.orders[o].status == CANCELLED)
    && s'.audit[o].loss == s.audit[o].loss
    && (s.db.orders[o].status == CANCELLED ==> s'.audit[o].held == s.audit[o].held)
  }

  ghost predicate IsNewOrder(s: State, o: OrderId)
    requires o < |s.db.orders| && o < |s.audit|
  {
    s.db.orders[o].status == PENDING && s.audit[o].loss.None?
  }

  lemma CancelsFrame(s: State, s': State)
    requires CancelsOk(s) && s'.cancels == s.cancels && |s'.audit| == |s'.db.orders|
    requires |s.db.orders| <= |s'.db.orders|
    requires forall o :: 0 <= o < |s.db.orders| ==> CancelUnaffected(s, s', o)
    requires forall o :: |s.db.orders| <= o < |s'.db.orders| ==> IsNewOrder(s', o)
    ensures CancelsOk(s')
  {
    forall r | r in s'.cancels ensures CancelOk(s', r) {
      assert CancelOk(s, r) && CancelUnaffected(s, s', s.cancels[r].order);
    }
    forall r, q, o | Restores(s', r, o) && Restores(s', q, o) ensures r == q {
      assert Restores(s, r, o) && Restores(s, q, o);
    }
    forall o | 0 <= o < |s'.db.orders| ensures HoldExplained(s', o) {
      if o < |s.db.orders| {
        assert HoldExplained(s, o) && CancelUnaffected(s, s', o);
        if r :| Restores(s, r, o) { assert Restores(s', r, o); }
      } else {
        assert IsNewOrder(s', o);
      }
    }
  }

  lemma HandlerStable(s: State, s': State, h: nat)
    requires h in s.handlers && h in s'.handlers && s'.handlers[h] == s.handlers[h]
    requires HandlerOk(s, h) && Evolves(s.db, s'.db)
    requires forall o | o in s.provider :: o in s'.provider && s'.provider[o] == s.provider[o]
    ensures HandlerOk(s', h)
  {
  }

  lemma InBrokerFrame(s: State, s': State, m: MessageId)
    requires InBroker(s, m)
    requires s'.broker == s.broker
    requires forall h :: Carries(s, h, m) ==> Carries(s', h, m)
    ensures InBroker(s', m)
  {
    if h :| Carries(s, h, m) { assert Carries(s', h, m); }
  }

  /** A step that moves rows but leaves the broker, the deliveries and the payments alone. */
  ghost predicate TableFrame(s: State, s': State) {
    && s'.broker == s.broker && s'.drains == s.drains && s'.handlers == s.handlers
    && s'.provider == s.provider && s'.applied == s.applied
    && Evolves(s.db, s'.db) && s'.db.inbox == s.db.inbox && s'.db.ledger == s.db.ledger
    && s'.db.published == s.db.published
    && forall o :: 0 <= o < |s'.audit| ==> SamePayments(s.audit, s'.audit, o)
  }

  lemma TableStep(s: State, s': State)
    requires Inv(s) && TableFrame(s, s')
    requires TablesOk(s'.db, s'.audit) && StockOk(s'.db.stock, s'.supplied, s'.audit) && CancelsOk(s')
    ensures Inv(s')
  {
    BrokerFrame(s, s');
    ChargesTableFrame(s, s');
    PaymentsFrame(s, s');
  }

  /** The payment history of old orders is unchanged and that of new orders is empty. */
  ghost predicate SamePayments(a: seq<Audit>, b: seq<Audit>, o: nat)
    requires o < |b|
  {
    if o < |a| then
      b[o].providerCalls == a[o].providerCalls && b[o].takeovers == a[o].takeovers && b[o].answers == a[o].answers
    else
      b[o].providerCalls == 0 && b[o].takeovers == 0 && b[o].answers == {}
  }

  lemma PaymentsFrame(s: State, s': State)
    requires PaymentsOk(s)
    requires forall o :: 0 <= o < |s'.audit| ==> SamePayments(s.audit, s'.audit, o)
    requires s'.db.ledger == s.db.ledger && s'.provider == s.provider
    ensures PaymentsOk(s')
  {
    forall o ensures LedgerAgrees(s', o) {
      assert LedgerAgrees(s, o);
    }
    forall o | 0 <= o < |s'.audit| ensures AnswersAgree(s', o) {
      assert SamePayments(s.audit, s'.audit, o);
      if o < |s.audit| { assert AnswersAgree(s, o); }
    }
  }

  lemma BrokerFrame(s: State, s': State)
    requires BrokerOk(s) && NothingDropped(s)
    requires s'.broker == s.broker && s'.drains == s.drains && s'.handlers == s.handlers && s'.provider == s.provider
    requires Evolves(s.db, s'.db) && s'.db.published == s.db.published
    ensures BrokerOk(s') && NothingDropped(s')
  {
    forall h | h in s'.handlers ensures HandlerOk(s', h) {
      HandlerStable(s, s', h);
    }
    forall m: MessageId | NotDropped(s, m) ensures NotDropped(s', m) {
      NotDroppedFrame(s, s', m);
    }
    forall d, m | d in s'.drains && m in s'.drains[d] ensures NotDropped(s', m) {
      assert NotDropped(s, m);
    }
    forall m | m in s'.db.published ensures NotDropped(s', m) {
      assert NotDropped(s, m);
    }
  }

  lemma NotDroppedFrame(s: State, s': State, m: MessageId)
    requires NotDropped(s, m)
    requires s'.broker == s.broker && Evolves(s.db, s'.db)
    requires forall h :: Carries(s, h, m) ==> Carries(s', h, m)
    ensures NotDropped(s', m)
  {
    if !Processed(s.db, m) {
      InBrokerFrame(s, s', m);
    }
  }

  lemma ChargesTableFrame(s: State, s': State)
    requires ChargesOk(s) && BrokerOk(s) && (forall o | o in s.db.ledger :: o < |s.audit|)
    requires s'.handlers == s.handlers && s.db.outbox <= s'.db.outbox && s'.db.ledger == s.db.ledger
    requires forall o :: 0 <= o < |s'.audit| ==> SamePayments(s.audit, s'.audit, o)
    ensures ChargesOk(s')
  {
    forall h | h in s.handlers ensures s.handlers[h].message < |s.db.outbox| {
      assert HandlerOk(s, h);
    }
    forall o | 0 <= o < |s'.audit| ensures ChargeOk(s', o) {
      assert SamePayments(s.audit, s'.audit, o);
      assert ChargingFor(s', o) == ChargingFor(s, o);
      if o < |s.audit| { assert ChargeOk(s, o); } else { NobodyCharges(s, o); }
    }
  }

  lemma NobodyCharges(s: State, o: OrderId)
    requires BrokerOk(s) && o !in s.db.ledger
    ensures ChargingFor(s, o) == {}
  {
    forall h | h in s.handlers ensures h !in ChargingFor(s, o) {
      assert HandlerOk(s, h);
    }
  }

  // ---------- requests ----------

  lemma CreateKeeps(s: State, user: UserId, lines: seq<Line>)
    requires Inv(s)
    ensures Inv(DoCreate(s, user, lines))
  {
    var s' := DoCreate(s, user, lines);
    CreateKeepsTables(s.db, s.audit, user, lines, Audit([], None, 0, 0, {}));
    forall p: ProductId ensures HeldTotal(s'.audit, p) == HeldTotal(s.audit, p) {
      HeldTotalSnoc(s.audit, Audit([], None, 0, 0, {}), p);
    }
    CancelsFrame(s, s');
    TableStep(s, s');
  }

  lemma PayKeeps(s: State, o: OrderId, user: UserId)
    requires Inv(s)
    ensures Inv(DoPay(s, o, user))
  {
    var s' := DoPay(s, o, user);
    if InitiatePayment(s.db, o, user).Ok? {
      PayKeepsTables(s.db, s.audit, o, user);
      CancelsFrame(s, s');
      TableStep(s, s');
    }
  }

  lemma CancelReadFrame(s: State, req: nat, o: OrderId, user: UserId)
    ensures TableFrame(s, DoCancelRead(s, req, o, user))
  {
  }

  lemma CancelReadKeepsCancels(s: State, req: nat, o: OrderId, user: UserId)
    requires CancelsOk(s) && req !in s.cancels
    ensures CancelsOk(DoCancelRead(s, req, o, user))
  {
    var s' := DoCancelRead(s, req, o, user);
    forall r | r in s'.cancels ensures CancelOk(s', r) {
      if r != req { assert CancelOk(s, r); }
    }
    CancelsGrow(s, s');
  }

  lemma CancelReadKeeps(s: State, req: nat, o: OrderId, user: UserId)
    requires Inv(s) && req !in s.cancels
    ensures Inv(DoCancelRead(s, req, o, user))
  {
    CancelReadFrame(s, req, o, user);
    CancelReadKeepsCancels(s, req, o, user);
    TableStep(s, DoCancelRead(s, req, o, user));
  }

  /** Adding requests that do not restore leaves every explanation in place. */
  lemma CancelsGrow(s: State, s': State)
    requires CancelsOk(s) && s'.db == s.db && s'.audit == s.audit
    requires forall r | r in s.cancels :: r in s'.cancels && s'.cancels[r] == s.cancels[r]
    requires forall r | r in s'.cancels && r !in s.cancels :: s'.cancels[r].CancelReading?
    requires forall r | r in s'.cancels :: CancelOk(s', r)
    ensures CancelsOk(s')
  {
    forall r, q, o | Restores(s', r, o) && Restores(s', q, o) ensures r == q {
      assert Restores(s, r, o) && Restores(s, q, o);
    }
    forall o | 0 <= o < |s'.db.orders| ensures HoldExplained(s', o) {
      assert HoldExplained(s, o);
      if r :| Restores(s, r, o) { assert Restores(s', r, o); }
    }
  }

  /** Requests other than `req` are untouched, and `req`'s order `o` is accounted for. */
  lemma CancelsAround(s: State, s': State, req: nat, o: OrderId)
    requires CancelsOk(s) && req in s.cancels && s.cancels[req].order == o
    requires |s'.audit| == |s'.db.orders| == |s.db.orders|
    requires forall r :: r != req ==> (r in s'.cancels <==> r in s.cancels)
    requires forall r :: r != req && r in s.cancels ==> s'.cancels[r] == s.cancels[r]
    requires req in s'.cancels ==> s'.cancels[req].order == o && CancelOk(s', req)
    requires forall q :: 0 <= q < |s.db.orders| && q != o ==> CancelUnaffected(s, s', q)
    requires o < |s.db.orders| && RowEvolves(s.db.orders[o], s'.db.orders[o])
    // either nothing about `o` changed, or no other request is restoring it
    requires (s'.audit[o] == s.audit[o] &&
              (s'.db.orders[o].status == CANCELLED ==> s.db.orders[o].status == CANCELLED)) ||
             forall r :: Restores(s, r, o) ==> r == req
    requires req in s'.cancels && s'.cancels[req].CancelRestoring? ==> forall r :: Restores(s, r, o) ==> r == req
    requires HoldExplained(s', o)
    ensures CancelsOk(s')
  {
    forall r | r in s'.cancels ensures CancelOk(s', r) {
      if r != req {
        assert CancelOk(s, r);
        if s.cancels[r].order != o {
          assert CancelUnaffected(s, s', s.cancels[r].order);
        } else if s.cancels[r].CancelRestoring? {
          assert Restores(s, r, o);
        }
      }
    }
    forall r, q, w | Restores(s', r, w) && Restores(s', q, w) ensures r == q {
      assert r != req ==> Restores(s, r, w);
      assert q != req ==> Restores(s, q, w);
    }
    forall q | 0 <= q < |s'.db.orders| ensures HoldExplained(s', q) {
      if q != o {
        assert HoldExplained(s, q) && CancelUnaffected(s, s', q);
        if r :| Restores(s, r, q) { assert Restores(s', r, q); }
      }
    }
  }

  lemma CancelClaimKeepsTables(s: State, req: nat)
    requires TablesOk(s.db, s.audit) && StockOk(s.db.stock, s.supplied, s.audit) && CanCancelClaim(s, req)
    ensures var s' := DoCancelClaim(s, req);
      TablesOk(s'.db, s'.audit) && StockOk(s'.db.stock, s'.supplied, s'.audit)
  {
    var s' := DoCancelClaim(s, req);
    var o := s.cancels[req].order;
    CancelClaimFrame(s, req);
    if ClaimCancel(s.db, o).Ok? {
      CancelKeepsTables(s.db, s.audit, o);
      TablesSameHeld(s'.db, s.audit, s'.audit);
      SameHeldKeepsStock(s.db.stock, s.supplied, s.audit, s'.audit);
    }
  }

  lemma LostClaimKeepsCancels(s: State, req: nat)
    requires CancelsOk(s) && CanCancelClaim(s, req) && ClaimCancel(s.db, s.cancels[req].order).Err?
    ensures CancelsOk(DoCancelClaim(s, req))
  {
    var s' := DoCancelClaim(s, req);
    var o := s.cancels[req].order;
    assert CancelOk(s, req) && HoldExplained(s, o);
    if r :| Restores(s, r, o) { assert Restores(s', r, o); }
    CancelsAround(s, s', req, o);
  }

  lemma NobodyRestores(s: State, o: OrderId)
    requires CancelsOk(s) && o < |s.db.orders| && s.db.orders[o].status != CANCELLED
    ensures forall r :: !Restores(s, r, o)
  {
    forall r ensures !Restores(s, r, o) {
      if r in s.cancels { assert CancelOk(s, r); }
    }
  }

  lemma WonClaimKeepsCancels(s: State, req: nat)
    requires TablesOk(s.db, s.audit) && CancelsOk(s) && CanCancelClaim(s, req)
    requires ClaimCancel(s.db, s.cancels[req].order).Ok?
    ensures CancelsOk(DoCancelClaim(s, req))
  {
    var s' := DoCancelClaim(s, req);
    var o := s.cancels[req].order;
    assert CancelOk(s, req) && HoldExplained(s, o) && HoldsWhatItShould(s.db, s.audit, o);
    NobodyRestores(s, o);
    if req in s'.cancels { assert Restores(s', req, o); }
    CancelsAround(s, s', req, o);
  }

  lemma CancelClaimKeepsCancels(s: State, req: nat)
    requires TablesOk(s.db, s.audit) && CancelsOk(s) && CanCancelClaim(s, req)
    ensures CancelsOk(DoCancelClaim(s, req))
  {
    if ClaimCancel(s.db, s.cancels[req].order).Ok? {
      WonClaimKeepsCancels(s, req);
    } else {
      LostClaimKeepsCancels(s, req);
    }
  }

  lemma CancelClaimEvolves(s: State, req: nat)
    requires CanCancelClaim(s, req)
    ensures Evolves(s.db, DoCancelClaim(s, req).db)
  {
    var o := s.cancels[req].order;
    EvolvesReflexive(s.db);
    if ClaimCancel(s.db, o).Ok? {
      assert DoCancelClaim(s, req).db == SetStatus(s.db, o, CANCELLED);
    }
  }

  lemma CancelClaimFrame(s: State, req: nat)
    requires CanCancelClaim(s, req)
    ensures TableFrame(s, DoCancelClaim(s, req))
    ensures forall o :: 0 <= o < |s.audit| ==> DoCancelClaim(s, req).audit[o].held == s.audit[o].held
  {
    CancelClaimEvolves(s, req);
    LossFrame(s, DoCancelClaim(s, req), s.cancels[req].order);
  }

  lemma CancelClaimKeeps(s: State, req: nat)
    requires Inv(s) && CanCancelClaim(s, req)
    ensures Inv(DoCancelClaim(s, req))
  {
    CancelClaimFrame(s, req);
    CancelClaimKeepsTables(s, req);
    CancelClaimKeepsCancels(s, req);
    TableStep(s, DoCancelClaim(s, req));
  }

  /** The tables' consistency reads only the held stock from the history. */
  lemma TablesSameHeld(db: Db, audit: seq<Audit>, audit': seq<Audit>)
    requires TablesOk(db, audit) && |audit'| == |audit|
    requires forall o :: 0 <= o < |audit| ==> audit'[o].held == audit[o].held
    ensures TablesOk(db, audit')
  {
    forall o | 0 <= o < |db.orders| ensures HoldsWhatItShould(db, audit', o) {
      assert HoldsWhatItShould(db, audit, o);
    }
  }

  lemma {:induction false} HeldTotalSameHeld(audit: seq<Audit>, audit': seq<Audit>, p: ProductId)
    requires |audit'| == |audit|
    requires forall o :: 0 <= o < |audit| ==> audit'[o].held == audit[o].held
    ensures HeldTotal(audit', p) == HeldTotal(audit, p)
  {
    if audit != [] {
      HeldTotalSameHeld(audit[..|audit| - 1], audit'[..|audit| - 1], p);
    }
  }

  lemma SameHeldKeepsStock(stock: Shelf, supplied: Shelf, audit: seq<Audit>, audit': seq<Audit>)
    requires StockOk(stock, supplied, audit) && |audit'| == |audit|
    requires forall o :: 0 <= o < |audit| ==> audit'[o].held == audit[o].held
    ensures StockOk(stock, supplied, audit')
  {
    forall p: ProductId ensures HeldTotal(audit', p) == HeldTotal(audit, p) {
      HeldTotalSameHeld(audit, audit', p);
    }
  }

  /** One line moves from what the order holds back to the shelf. */
  lemma RestoreMovesStock(db: Db, supplied: Shelf, audit: seq<Audit>, o: OrderId, a: Audit)
    requires StockOk(db.stock, supplied, audit) && o < |audit| && audit[o].held != [] && a.held == audit[o].held[1..]
    ensures StockOk(RestoreLine(db, audit[o].held[0]).stock, supplied, audit[o := a])
  {
    var held, stock' := audit[o].held, RestoreLine(db, audit[o].held[0]).stock;
    forall p | p in stock' ensures stock'[p] + HeldTotal(audit[o := a], p) == supplied[p] {
      HeldTotalUpdate(audit, o, a, p);
      TotalCons(held[0], held[1..], p);
      assert held == [held[0]] + held[1..];
    }
  }

  lemma CancelRestoreKeepsStock(s: State, req: nat)
    requires Inv(s) && CanCancelRestore(s, req)
    ensures var s' := DoCancelRestore(s, req); StockOk(s'.db.stock, s'.supplied, s'.audit)
  {
    var o := s.cancels[req].order;
    assert CancelOk(s, req);
    RestoreMovesStock(s.db, s.supplied, s.audit, o, DoCancelRestore(s, req).audit[o]);
  }

  lemma CancelRestoreKeepsCancels(s: State, req: nat)
    requires CancelsOk(s) && CanCancelRestore(s, req)
    ensures CancelsOk(DoCancelRestore(s, req))
  {
    var s' := DoCancelRestore(s, req);
    var o := s.cancels[req].order;
    assert CancelOk(s, req) && HoldExplained(s, o) && Restores(s, req, o);
    if req in s'.cancels { assert Restores(s', req, o); }
    CancelsAround(s, s', req, o);
  }

  lemma CancelRestoreKeeps(s: State, req: nat)
    requires Inv(s) && CanCancelRestore(s, req)
    ensures Inv(DoCancelRestore(s, req))
  {
    var s' := DoCancelRestore(s, req);
    assert CancelOk(s, req);
    LedgerKeysPaid(s.db, s.audit);
    SideEntriesKeepTables(s.db, s.audit, s'.db, s'.audit);
    CancelRestoreKeepsStock(s, req);
    CancelRestoreKeepsCancels(s, req);
    TableStep(s, s');
  }

  lemma CancelCrashKeepsCancels(s: State, req: nat)
    requires CancelsOk(s) && CanCancelCrash(s, req)
    ensures CancelsOk(DoCancelCrash(s, req))
  {
    var s' := DoCancelCrash(s, req);
    var o := s.cancels[req].order;
    assert CancelOk(s, req) && HoldExplained(s, o);
    if s.cancels[req].CancelRestoring? {
      assert Restores(s, req, o);
    } else if r :| Restores(s, r, o) {
      assert Restores(s', r, o);
    }
    CancelsAround(s, s', req, o);
  }

  /** A step of a cancel request: rows may move, and at most the reason for a loss is written down. */
  lemma LossFrame(s: State, s': State, o: OrderId)
    requires s' == s.(db := s'.db, cancels := s'.cancels, audit := s'.audit) && o < |s.audit|
    requires Evolves(s.db, s'.db) && s'.db.inbox == s.db.inbox && s'.db.ledger == s.db.ledger
    requires s'.db.published == s.db.published
    requires |s'.audit| == |s.audit| && s'.audit == s.audit[o := s.audit[o].(loss := s'.audit[o].loss)]
    ensures TableFrame(s, s')
    ensures forall q :: 0 <= q < |s.audit| ==> s'.audit[q].held == s.audit[q].held
  {
  }

  lemma EvolvesReflexive(db: Db)
    ensures Evolves(db, db)
  {
  }

  lemma CancelCrashFrame(s: State, req: nat)
    requires CanCancelCrash(s, req)
    ensures var s' := DoCancelCrash(s, req);
      && TableFrame(s, s') && s'.db == s.db && s'.supplied == s.supplied && |s'.audit| == |s.audit|
      && forall o :: 0 <= o < |s.audit| ==> s'.audit[o].held == s.audit[o].held
  {
    EvolvesReflexive(s.db);
    LossFrame(s, DoCancelCrash(s, req), s.cancels[req].order);
  }

  lemma CancelCrashKeeps(s: State, req: nat)
    requires Inv(s) && CanCancelCrash(s, req)
    ensures Inv(DoCancelCrash(s, req))
  {
    var s' := DoCancelCrash(s, req);
    CancelCrashFrame(s, req);
    TablesSameHeld(s.db, s.audit, s'.audit);
    SameHeldKeepsStock(s.db.stock, s.supplied, s.audit, s'.audit);
    CancelCrashKeepsCancels(s, req);
    TableStep(s, s');
  }

  lemma ReplenishKeeps(s: State, p: ProductId, amount: nat)
    requires Inv(s) && p in s.db.stock && p in s.supplied
    ensures Inv(DoReplenish(s, p, amount))
  {
    var s' := DoReplenish(s, p, amount);
    LedgerKeysPaid(s.db, s.audit);
    SideEntriesKeepTables(s.db, s.audit, s'.db, s'.audit);
    CancelsFrame(s, s');
    TableStep(s, s');
  }

  lemma TickKeeps(s: State)
    requires Inv(s)
    ensures Inv(s.(now := s.now + 1))
  {
    var s' := s.(now := s.now + 1);
    CancelsFrame(s, s');
    TableStep(s, s');
  }

  lemma CancelRequestKeeps(s: State, step: RequestStep)
    requires Inv(s) && CanRequest(s, step)
    requires step.CancelReadStep? || step.CancelClaimStep? || step.CancelRestoreStep? || step.CancelCrashStep?
    ensures Inv(DoRequest(s, step))
  {
    match step
    case CancelReadStep(req, o, user) => CancelReadKeeps(s, req, o, user);
    case CancelClaimStep(req) => CancelClaimKeeps(s, req);
    case CancelRestoreStep(req) => CancelRestoreKeeps(s, req);
    case CancelCrashStep(req) => CancelCrashKeeps(s, req);
  }

  lemma RequestKeeps(s: State, step: RequestStep)
    requires Inv(s) && CanRequest(s, step)
    ensures Inv(DoRequest(s, step))
  {
    match step
    case CreateStep(user, lines) => CreateKeeps(s, user, lines);
    case PayStep(o, user) => PayKeeps(s, o, user);
    case ReplenishStep(p, amount) => ReplenishKeeps(s, p, amount);
    case TickStep => TickKeeps(s);
    case _ => CancelRequestKeeps(s, step);
  }

  // ---------- the relay ----------

  lemma QueuedGrows(bag: multiset<Copy>, c: Copy, m: MessageId)
    ensures Queued(bag + multiset{c}, m) <==> Queued(bag, m) || m == c.message
  {
    var bag' := bag + multiset{c};
    if a: nat :| InBag(bag, Copy(m, a)) { assert InBag(bag', Copy(m, a)); }
    if m == c.message { assert InBag(bag', Copy(m, c.attempts)); }
    if a: nat :| InBag(bag', Copy(m, a)) { assert InBag(bag, Copy(m, a)) || Copy(m, a) == c; }
  }

  lemma QueuedShrinks(bag: multiset<Copy>, c: Copy, m: MessageId)
    requires Queued(bag, m) && m != c.message
    ensures Queued(bag - multiset{c}, m)
  {
    var a: nat :| InBag(bag, Copy(m, a));
    assert InBag(bag - multiset{c}, Copy(m, a));
  }

  /** A step of the broker or of one delivery: the tables and the books stay as they are. */
  ghost predicate MessageFrame(s: State, s': State) {
    && s'.db == s.db && s'.cancels == s.cancels && s'.provider == s.provider && s'.audit == s.audit
    && s'.supplied == s.supplied && s'.applied == s.applied
  }

  lemma CancelsSame(s: State, s': State)
    requires CancelsOk(s) && s'.cancels == s.cancels && s'.db.orders == s.db.orders && |s'.audit| == |s.audit|
    requires forall o :: 0 <= o < |s.audit| ==> SameCancelHistory(s.audit, s'.audit, o)
    ensures CancelsOk(s')
  {
    forall o | 0 <= o < |s.db.orders| ensures CancelUnaffected(s, s', o) {
      assert SameCancelHistory(s.audit, s'.audit, o);
    }
    CancelsFrame(s, s');
  }

  ghost predicate SameCancelHistory(a: seq<Audit>, b: seq<Audit>, o: nat)
    requires o < |a| && o < |b|
  {
    b[o].held == a[o].held && b[o].loss == a[o].loss
  }

  lemma MessageStep(s: State, s': State)
    requires Inv(s) && MessageFrame(s, s')
    requires BrokerOk(s') && NothingDropped(s') && ChargesOk(s')
    ensures Inv(s')
  {
    CancelsSame(s, s');
    forall o ensures LedgerAgrees(s', o) { assert LedgerAgrees(s, o); }
    forall o | 0 <= o < |s'.audit| ensures AnswersAgree(s', o) { assert AnswersAgree(s, o); }
  }

  /** Deliveries other than `h` are untouched. */
  ghost predicate OthersSame(s: State, s': State, h: nat) {
    && (forall i {:trigger i in s'.handlers} :: i != h ==> (i in s'.handlers <==> i in s.handlers))
    && (forall i {:trigger s'.handlers[i]} :: i != h && i in s.handlers && i in s'.handlers ==>
          s'.handlers[i] == s.handlers[i])
  }

  /** If only delivery `h` moved and it is not about to charge, no charge is added. */
  lemma ChargesShrink(s: State, s': State, h: nat)
    requires ChargesOk(s) && BrokerOk(s) && OthersSame(s, s', h)
    requires s.db.outbox <= s'.db.outbox && s'.db.ledger == s.db.ledger
    requires |s'.audit| == |s.audit| && forall o :: 0 <= o < |s'.audit| ==> SamePayments(s.audit, s'.audit, o)
    requires h in s'.handlers && s'.handlers[h].pc.Charging? ==> h in s.handlers && s'.handlers[h] == s.handlers[h]
    ensures ChargesOk(s')
  {
    forall o | 0 <= o < |s'.audit| ensures ChargeOk(s', o) {
      assert ChargeOk(s, o) && SamePayments(s.audit, s'.audit, o);
      forall i | i in ChargingFor(s', o) ensures i in ChargingFor(s, o) {
        assert i in s.handlers && s'.handlers[i] == s.handlers[i];
        assert HandlerOk(s, i);
      }
      SubsetSize(ChargingFor(s', o), ChargingFor(s, o));
    }
  }

  lemma {:induction false} SubsetSize(a: set<nat>, b: set<nat>)
    requires a <= b
    ensures |a| <= |b|
  {
    if a != {} {
      var x :| x in a;
      SubsetSize(a - {x}, b - {x});
    }
  }

  lemma HandlersFrame(s: State, s': State, h: nat)
    requires BrokerOk(s) && OthersSame(s, s', h) && Evolves(s.db, s'.db)
    requires forall o | o in s.provider :: o in s'.provider && s'.provider[o] == s.provider[o]
    requires h in s'.handlers ==> HandlerOk(s', h)
    ensures forall i | i in s'.handlers :: HandlerOk(s', i)
  {
    forall i | i in s'.handlers ensures HandlerOk(s', i) {
      if i != h {
        assert i in s.handlers && s'.handlers[i] == s.handlers[i];
        HandlerStable(s, s', i);
      }
    }
  }

  /** Nothing is dropped if every message that was safe before is safe now. */
  lemma DropFrame(s: State, s': State)
    requires NothingDropped(s)
    requires forall m: MessageId :: NotDropped(s, m) ==> NotDropped(s', m)
    requires forall m | m in s'.db.published :: m in s.db.published || NotDropped(s', m)
    requires forall d, m {:trigger m in s'.drains[d]} :: d in s'.drains && m in s'.drains[d] ==>
      NotDropped(s', m) || (d in s.drains && m in s.drains[d])
    ensures NothingDropped(s')
  {
    forall m | m in s'.db.published ensures NotDropped(s', m) {
      assert m in s.db.published ==> NotDropped(s, m);
    }
    forall d, m | d in s'.drains && m in s'.drains[d] ensures NotDropped(s', m) {
      assert d in s.drains && m in s.drains[d] ==> NotDropped(s, m);
    }
  }

  lemma SameHandlersCharges(s: State, s': State)
    requires ChargesOk(s) && s'.handlers == s.handlers && s'.db.outbox == s.db.outbox && s'.db.ledger == s.db.ledger
    requires s'.audit == s.audit
    ensures ChargesOk(s')
  {
    forall o | 0 <= o < |s'.audit| ensures ChargeOk(s', o) {
      assert ChargeOk(s, o) && ChargingFor(s', o) == ChargingFor(s, o);
    }
  }

  lemma SameHandlersOk(s: State, s': State)
    requires BrokerOk(s) && s'.handlers == s.handlers && Evolves(s.db, s'.db) && s'.provider == s.provider
    ensures forall h | h in s'.handlers :: HandlerOk(s', h)
  {
    forall h | h in s'.handlers ensures HandlerOk(s', h) {
      HandlerStable(s, s', h);
    }
  }

  /** A copy joins one of the queues: nothing that was in the broker leaves it. */
  lemma InBrokerGrows(s: State, s': State, m: MessageId, c: Copy)
    requires InBroker(s, m)
    requires s'.broker.work in {s.broker.work, s.broker.work + multiset{c}}
    requires s'.broker.wait in {s.broker.wait, s.broker.wait + multiset{c}}
    requires s'.broker.dlq in {s.broker.dlq, s.broker.dlq + multiset{c}}
    requires forall h :: Carries(s, h, m) ==> Carries(s', h, m) || InBroker(s', m)
    ensures InBroker(s', m)
  {
    QueuedGrows(s.broker.work, c, m);
    QueuedGrows(s.broker.wait, c, m);
    QueuedGrows(s.broker.dlq, c, m);
    if h :| Carries(s, h, m) {}
  }

  lemma PublishKeeps(s: State, d: nat, m: MessageId)
    requires Inv(s) && CanPublish(s, m)
    ensures Inv(DoPublish(s, d, m))
  {
    var s' := DoPublish(s, d, m);
    var c := Copy(m, 0);
    QueuedGrows(s.broker.work, c, m);
    assert NotDropped(s', m);
    forall n: MessageId | NotDropped(s, n) ensures NotDropped(s', n) {
      if InBroker(s, n) {
        assert forall h :: Carries(s, h, n) ==> Carries(s', h, n);
        InBrokerGrows(s, s', n, c);
      }
    }
    DropFrame(s, s');
    SameHandlersOk(s, s');
    SameHandlersCharges(s, s');
    MessageStep(s, s');
  }

  lemma DrainCommitKeeps(s: State, d: nat)
    requires Inv(s) && d in s.drains
    ensures Inv(DoDrainCommit(s, d))
  {
    var s' := DoDrainCommit(s, d);
    forall m: MessageId | NotDropped(s, m) ensures NotDropped(s', m) {
      assert forall h :: Carries(s, h, m) ==> Carries(s', h, m);
      NotDroppedFrame(s, s', m);
    }
    forall m | m in s.drains[d] ensures NotDropped(s', m) {
      assert NotDropped(s, m);
    }
    DropFrame(s, s');
    SameHandlersOk(s, s');
    SameHandlersCharges(s, s');
    LedgerKeysPaid(s.db, s.audit);
    SideEntriesKeepTables(s.db, s.audit, s'.db, s'.audit);
    CancelsSame(s, s');
    forall o ensures LedgerAgrees(s', o) { assert LedgerAgrees(s, o); }
    forall o | 0 <= o < |s'.audit| ensures AnswersAgree(s', o) { assert AnswersAgree(s, o); }
  }

  lemma DrainCrashKeeps(s: State, d: nat)
    requires Inv(s) && d in s.drains
    ensures Inv(s.(drains := Without(s.drains, d)))
  {
    var s' := s.(drains := Without(s.drains, d));
    forall m: MessageId | NotDropped(s, m) ensures NotDropped(s', m) {
      assert forall h :: Carries(s, h, m) ==> Carries(s', h, m);
      NotDroppedFrame(s, s', m);
    }
    DropFrame(s, s');
    SameHandlersOk(s, s');
    SameHandlersCharges(s, s');
    MessageStep(s, s');
  }

  lemma RelayKeeps(s: State, step: RelayStep)
    requires Inv(s) && CanRelay(s, step)
    ensures Inv(DoRelay(s, step))
  {
    match step
    case PublishStep(d, m) => PublishKeeps(s, d, m);
    case DrainCommitStep(d) => DrainCommitKeeps(s, d);
    case DrainCrashStep(d) => DrainCrashKeeps(s, d);
  }
}
