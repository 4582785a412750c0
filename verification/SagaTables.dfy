/** Every transaction keeps the tables consistent with one another. */
module SagaTables {
  import opened Common
  import opened OrderStateMachine
  import opened Stock
  import opened Tables
  import opened Saga
  import opened SagaInvariant

  // ---------- events under the two ways the outbox and inbox change ----------

  lemma HasEventGrows(a: Db, b: Db, kind: EventKind, o: OrderId)
    requires a.outbox <= b.outbox && HasEvent(a, kind, o)
    ensures HasEvent(b, kind, o)
  {
    var m: MessageId :| IsEvent(a, m, kind, o);
    assert IsEvent(b, m, kind, o);
  }

  lemma EnqueueAnnounces(a: Db, b: Db, kind: EventKind, o: OrderId)
    requires |b.outbox| == |a.outbox| + 1 && b.outbox[|a.outbox|].kind == kind && b.outbox[|a.outbox|].order == o
    ensures HasEvent(b, kind, o)
  {
    assert IsEvent(b, |a.outbox|, kind, o);
  }

  /** A fresh event stays unique if its order had not announced that kind before. */
  lemma UniqueSnoc(a: Db, b: Db, e: Event)
    requires EventsUnique(a) && b.outbox == a.outbox + [e] && !HasEvent(a, e.kind, e.order)
    ensures EventsUnique(b)
  {
    forall m, n | 0 <= m < n < |b.outbox|
      ensures b.outbox[m].kind != b.outbox[n].kind || b.outbox[m].order != b.outbox[n].order
    {
      if n == |a.outbox| {
        assert !IsEvent(a, m, e.kind, e.order);
      }
    }
  }

  lemma NotAnnounced(db: Db, kind: EventKind, o: OrderId)
    requires forall m :: 0 <= m < |db.outbox| ==> EventOk(db, m)
    requires o < |db.orders| ==> !Announces(db.orders[o], kind)
    ensures !HasEvent(db, kind, o)
  {
    forall m: MessageId ensures !IsEvent(db, m, kind, o) {
      if m < |db.outbox| {
        assert EventOk(db, m);
      }
    }
  }

  // ---------- one lemma per transaction ----------

  lemma CreateKeepsTables(db: Db, audit: seq<Audit>, user: UserId, lines: seq<Line>, a: Audit)
    requires TablesOk(db, audit) && a.held == []
    ensures TablesOk(CreateOrder(db, user, lines), audit + [a])
  {
    var db' := CreateOrder(db, user, lines);
    var n := |db.orders|;
    NotAnnounced(db, Created, n);
    UniqueSnoc(db, db', Event(Created, n, lines));
    EnqueueAnnounces(db, db', Created, n);
    forall o, kind | 0 <= o < |db'.orders| && Announces(db'.orders[o], kind) ensures HasEvent(db', kind, o) {
      if o < n {
        assert Announced(db, o);
        HasEventGrows(db, db', kind, o);
      }
    }
    forall m | 0 <= m < |db'.outbox| ensures EventOk(db', m) {
      if m < |db.outbox| {
        assert EventOk(db, m);
      }
    }
    forall o | 0 <= o < |db'.orders| ensures PaidAsRecorded(db', o) && HoldsWhatItShould(db', audit + [a], o) {
      if o < n { assert PaidAsRecorded(db, o) && HoldsWhatItShould(db, audit, o); }
    }
  }

  lemma PayKeepsTables(db: Db, audit: seq<Audit>, o: OrderId, user: UserId)
    requires TablesOk(db, audit) && InitiatePayment(db, o, user).Ok?
    ensures TablesOk(InitiatePayment(db, o, user).value, audit)
  {
    var db' := InitiatePayment(db, o, user).value;
    NotAnnounced(db, InventoryReserved, o);
    UniqueSnoc(db, db', Event(InventoryReserved, o, []));
    EnqueueAnnounces(db, db', InventoryReserved, o);
    forall q, kind | 0 <= q < |db'.orders| && Announces(db'.orders[q], kind) ensures HasEvent(db', kind, q) {
      assert Announced(db, q);
      if q != o || kind != InventoryReserved {
        HasEventGrows(db, db', kind, q);
      }
    }
    forall m | 0 <= m < |db'.outbox| ensures EventOk(db', m) {
      if m < |db.outbox| {
        assert EventOk(db, m);
      } else {
        assert InboxKeyOf(db', m).0 == m;
      }
    }
    forall q | 0 <= q < |db'.orders| ensures PaidAsRecorded(db', q) && HoldsWhatItShould(db', audit, q) {
      assert PaidAsRecorded(db, q) && HoldsWhatItShould(db, audit, q);
    }
  }

  lemma CancelKeepsTables(db: Db, audit: seq<Audit>, o: OrderId)
    requires TablesOk(db, audit) && ClaimCancel(db, o).Ok?
    ensures TablesOk(ClaimCancel(db, o).value, audit)
  {
    var db' := ClaimCancel(db, o).value;
    forall q, kind | 0 <= q < |db'.orders| && Announces(db'.orders[q], kind) ensures HasEvent(db', kind, q) {
      assert Announced(db, q);
      HasEventGrows(db, db', kind, q);
    }
    assert PaidAsRecorded(db, o);
    forall m | 0 <= m < |db'.outbox| ensures EventOk(db', m) {
      assert EventOk(db, m);
    }
    forall q | 0 <= q < |db'.orders| ensures PaidAsRecorded(db', q) && HoldsWhatItShould(db', audit, q) {
      assert PaidAsRecorded(db, q) && HoldsWhatItShould(db, audit, q);
    }
  }

  /** Each order has announced what its row says, and nothing twice. */
  lemma AdvanceAnnounces(db: Db, audit: seq<Audit>, m: MessageId, db': Db, audit': seq<Audit>)
    requires TablesOk(db, audit) && m < |db.outbox| && !Processed(db, m)
    requires db.outbox[m].order < |db.orders| && Drives(db, m, db', audit, audit')
    ensures EventsUnique(db') && forall o :: 0 <= o < |db'.orders| ==> Announced(db', o)
  {
    var o := db.outbox[m].order;
    assert EventOk(db, m) && PaidAsRecorded(db, o);
    if db'.outbox != db.outbox {
      var f := db'.outbox[|db.outbox|];
      NotAnnounced(db, f.kind, o);
      UniqueSnoc(db, db', f);
      EnqueueAnnounces(db, db', f.kind, o);
    }
    forall q, kind | 0 <= q < |db'.orders| && Announces(db'.orders[q], kind) ensures HasEvent(db', kind, q) {
      assert Announced(db, q);
      if Announces(db.orders[q], kind) {
        HasEventGrows(db, db', kind, q);
      }
    }
  }

  /** A transition committed together with the inbox record of the event that drives it. */
  lemma AdvanceKeepsTables(db: Db, audit: seq<Audit>, m: MessageId, db': Db, audit': seq<Audit>)
    requires TablesOk(db, audit) && m < |db.outbox| && !Processed(db, m)
    requires db.outbox[m].order < |db.orders|
    requires Drives(db, m, db', audit, audit')
    ensures TablesOk(db', audit')
  {
    var e := db.outbox[m];
    var o := e.order;
    AdvanceAnnounces(db, audit, m, db', audit');
    assert EventOk(db, m) && PaidAsRecorded(db, o) && HoldsWhatItShould(db, audit, o);
    forall n | 0 <= n < |db'.outbox| ensures EventOk(db', n) {
      if n < |db.outbox| {
        assert EventOk(db, n);
        assert n != m ==> db.outbox[n].kind != e.kind || db.outbox[n].order != o;
      }
    }
    forall q | 0 <= q < |db'.orders| ensures PaidAsRecorded(db', q) && HoldsWhatItShould(db', audit', q) {
      assert PaidAsRecorded(db, q) && HoldsWhatItShould(db, audit, q);
    }
  }

  /** The announcement that goes with reaching a status. */
  function EventFor(to: OrderStatus): Option<EventKind> {
    match to
    case PAID => Some(PaymentProcessed)
    case COMPLETED => Some(Completed)
    case FAILED => Some(Failed)
    case _ => None
  }

  /** `db'` is `db` after the first processing of event `m`. */
  ghost predicate Drives(db: Db, m: MessageId, db': Db, audit: seq<Audit>, audit': seq<Audit>)
    requires m < |db.outbox| && db.outbox[m].order < |db.orders|
  {
    var e := db.outbox[m];
    var o := e.order;
    && |db'.orders| == |db.orders|
    && var to := db'.orders[o].status;
    && db'.orders == db.orders[o := db.orders[o].(status := to)]
    && IsTransitionAllowed(db.orders[o].status, to)
    && db'.inbox == db.inbox + {InboxKeyOf(db, m)} && db'.ledger == db.ledger
    && db'.outbox == db.outbox + (if EventFor(to).Some? then [Event(EventFor(to).value, o, [])] else [])
    && |audit'| == |audit| && o < |audit| && audit' == audit[o := audit[o].(held := audit'[o].held)]
    && match e.kind
       case Created =>
         to in {RESERVED, FAILED} && audit'[o].held == if to == RESERVED then e.items else audit[o].held
       case InventoryReserved =>
         audit'[o].held == audit[o].held && ((to == PAID && Authorised(db, o)) || (to == FAILED && DeclinedBy(db, o)))
       case PaymentProcessed => to == COMPLETED && audit'[o].held == audit[o].held
       case _ => false
  }

  lemma SideEntriesKeepTables(db: Db, audit: seq<Audit>, db': Db, audit': seq<Audit>)
    requires TablesOk(db, audit)
    requires db'.orders == db.orders && db'.outbox == db.outbox && |audit'| == |audit|
    requires forall o :: 0 <= o < |audit| ==>
      || audit'[o].held == audit[o].held
      || (db.orders[o].status == CANCELLED && audit[o].held != [] && audit'[o].held == audit[o].held[1..])
    requires forall m :: 0 <= m < |db.outbox| ==>
      Processed(db', m) == Processed(db, m) || db.outbox[m].kind in {Completed, Failed}
    requires forall k | k in db'.inbox :: k.0 < |db.outbox|
    requires forall o | o in db.ledger ::
      o in db'.ledger && (Decision(db.ledger[o]).Some? ==> db'.ledger[o] == db.ledger[o])
    requires forall o | o in db'.ledger :: o < |db.orders| && db.orders[o].paymentInitiated
    ensures TablesOk(db', audit')
  {
    forall o, kind | 0 <= o < |db'.orders| && Announces(db'.orders[o], kind) ensures HasEvent(db', kind, o) {
      assert Announced(db, o);
      HasEventGrows(db, db', kind, o);
    }
    forall m | 0 <= m < |db'.outbox| ensures EventOk(db', m) {
      assert EventOk(db, m);
    }
    forall o | 0 <= o < |db'.orders| ensures PaidAsRecorded(db', o) {
      assert PaidAsRecorded(db, o);
    }
    forall o | 0 <= o < |db'.orders| ensures HoldsWhatItShould(db', audit', o) {
      assert HoldsWhatItShould(db, audit, o);
    }
  }

  lemma InventoryDrives(db: Db, audit: seq<Audit>, m: MessageId, short: bool)
    requires |audit| == |db.orders| && m < |db.outbox| && db.outbox[m].kind.Created?
    requires InventoryWork(db, db.outbox[m], short).Ok?
    ensures var e, done := db.outbox[m], InventoryWork(db, db.outbox[m], short).value;
      && e.order < |db.orders| && done.inbox == db.inbox
      && Drives(db, m, done.(inbox := db.inbox + {InboxKeyOf(db, m)}), audit,
                if short then audit else audit[e.order := audit[e.order].(held := e.items)])
  {
    var done := InventoryWork(db, db.outbox[m], short).value;
    assert !short ==> done.outbox == db.outbox + [];
  }

  lemma PaymentDrives(db: Db, audit: seq<Audit>, m: MessageId, result: PaymentResult)
    requires |audit| == |db.orders| && m < |db.outbox| && db.outbox[m].kind.InventoryReserved?
    requires db.outbox[m].order in db.ledger && Decision(db.ledger[db.outbox[m].order]) == Some(result)
    requires PaymentWork(db, db.outbox[m], result).Ok?
    ensures var e, done := db.outbox[m], PaymentWork(db, db.outbox[m], result).value;
      && e.order < |db.orders| && done.inbox == db.inbox
      && Drives(db, m, done.(inbox := db.inbox + {InboxKeyOf(db, m)}), audit, audit)
  {
  }

  lemma CompletionDrives(db: Db, audit: seq<Audit>, m: MessageId)
    requires |audit| == |db.orders| && m < |db.outbox| && db.outbox[m].kind.PaymentProcessed?
    requires CompletionWork(db, db.outbox[m]).Ok?
    ensures var e, done := db.outbox[m], CompletionWork(db, db.outbox[m]).value;
      && e.order < |db.orders| && done.inbox == db.inbox
      && Drives(db, m, done.(inbox := db.inbox + {InboxKeyOf(db, m)}), audit, audit)
  {
  }

  lemma CommitDrives(s: State, h: nat)
    requires |s.audit| == |s.db.orders| && CanCommit(s, h) && HandlerOk(s, h)
    requires EventOf(s, h).kind in {Created, InventoryReserved, PaymentProcessed}
    requires FinishRunOnce(InboxKeyOf(s.db, s.handlers[h].message), Work(s, h)).Committed?
    ensures !Processed(s.db, s.handlers[h].message)
    ensures EventOf(s, h).order < |s.db.orders|
    ensures Drives(s.db, s.handlers[h].message, DoCommit(s, h).db, s.audit, DoCommit(s, h).audit)
  {
    var m := s.handlers[h].message;
    match EventOf(s, h).kind
    case Created => InventoryDrives(s.db, s.audit, m, s.handlers[h].pc.short);
    case InventoryReserved => PaymentDrives(s.db, s.audit, m, s.handlers[h].pc.result);
    case PaymentProcessed => CompletionDrives(s.db, s.audit, m);
  }

  lemma CommitKeepsTables(s: State, h: nat)
    requires TablesOk(s.db, s.audit) && CanCommit(s, h) && HandlerOk(s, h)
    ensures TablesOk(DoCommit(s, h).db, DoCommit(s, h).audit)
  {
    var m := s.handlers[h].message;
    assert EventOk(s.db, m);
    if FinishRunOnce(InboxKeyOf(s.db, m), Work(s, h)).Committed? {
      var s' := DoCommit(s, h);
      if s.db.outbox[m].kind in {Created, InventoryReserved, PaymentProcessed} {
        CommitDrives(s, h);
        AdvanceKeepsTables(s.db, s.audit, m, s'.db, s'.audit);
      } else {
        LedgerKeysPaid(s.db, s.audit);
        SideEntriesKeepTables(s.db, s.audit, s'.db, s'.audit);
      }
    }
  }

  lemma LedgerKeysPaid(db: Db, audit: seq<Audit>)
    requires TablesOk(db, audit)
    ensures forall o | o in db.ledger :: o < |db.orders| && db.orders[o].paymentInitiated
  {
    forall o | o in db.ledger ensures o < |db.orders| && db.orders[o].paymentInitiated {
      assert PaidAsRecorded(db, o);
    }
  }
}
