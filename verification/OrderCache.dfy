/**
 The Redis cache in front of the order reads (getOrderForUser, listOrdersForUser),
 running beside the saga. A read is a cache lookup, a database load and a late write
 back, with any number of saga steps in between; invalidations may be lost and
 entries may expire at any moment.
 */
module OrderCache {
  import opened Common
  import opened OrderStateMachine
  import opened Stock
  import opened Tables
  import opened Saga
  import opened SagaInvariant
  import opened SagaTheorems

  datatype Row = Row(id: OrderId, order: Order)

  /** `seen` is history: how many orders existed when the rows were read. */
  datatype Listing = Listing(rows: seq<Row>, seen: nat)

  /** A read that missed the cache, has loaded from the database and will now write back. */
  datatype Reader =
    | OneLoaded(id: OrderId, order: Order)
    | ListLoaded(user: UserId, listing: Listing)

  datatype Cached = Cached(
    saga: State,
    byId: map<OrderId, Order>,        // order:{id}
    lists: map<UserId, Listing>,      // orders:user:{userId}
    readers: map<nat, Reader>,
    creators: map<nat, UserId>,       // createOrder calls that have committed but not yet sent their del
    missed: set<UserId>)              // history: a del was lost, or a list load overlapped a create

  datatype CacheStep =
    | SagaStep(step: Step)
    | CreateOrderStep(req: nat, user: UserId, lines: seq<Line>)
    | DelStep(req: nat)
    | LostDelStep(req: nat)
    | LoadOneStep(r: nat, id: OrderId, user: UserId)
    | LoadListStep(r: nat, user: UserId)
    | WriteBackStep(r: nat)
    | AbandonStep(r: nat)
    | EvictOneStep(id: OrderId)
    | EvictListStep(user: UserId)

  // ---------- the reads ----------

  /** The owner-scoped database lookup. */
  function DbLookup(db: Db, id: OrderId, user: UserId): Option<Order> {
    if id < |db.orders| && db.orders[id].user == user then Some(db.orders[id]) else None
  }

  /** getOrderForUser as a caller sees it; None is NotFoundException. */
  function GetOrderForUser(c: Cached, id: OrderId, user: UserId): Option<Order> {
    if id in c.byId && c.byId[id].user == user then Some(c.byId[id]) else DbLookup(c.saga.db, id, user)
  }

  /** The user's orders among the first `n`, most recent first. */
  function UserOrders(orders: seq<Order>, n: nat, user: UserId): seq<Row>
    requires n <= |orders|
  {
    if n == 0 then []
    else if orders[n - 1].user == user then [Row(n - 1, orders[n - 1])] + UserOrders(orders, n - 1, user)
    else UserOrders(orders, n - 1, user)
  }

  predicate NewestFirst(rows: seq<Row>) {
    forall i, j :: 0 <= i < j < |rows| ==> rows[i].id > rows[j].id
  }

  /** The rows are the user's orders, each as it is, and no others. */
  predicate OrdersOf(orders: seq<Order>, user: UserId, rows: seq<Row>) {
    && (forall i :: 0 <= i < |rows| ==>
          rows[i].id < |orders| && orders[rows[i].id] == rows[i].order && rows[i].order.user == user)
    && (forall o :: 0 <= o < |orders| && orders[o].user == user ==> Row(o, orders[o]) in rows)
  }

  lemma {:induction false} UserOrdersDescend(orders: seq<Order>, n: nat, user: UserId)
    requires n <= |orders|
    ensures NewestFirst(UserOrders(orders, n, user))
    ensures forall row | row in UserOrders(orders, n, user) ::
      row.id < n && orders[row.id] == row.order && row.order.user == user
  {
    if n > 0 {
      UserOrdersDescend(orders, n - 1, user);
      var rest := UserOrders(orders, n - 1, user);
      forall i | 0 <= i < |rest| ensures rest[i].id < n - 1 { assert rest[i] in rest; }
      if orders[n - 1].user == user { FirstIsNewest(Row(n - 1, orders[n - 1]), rest); }
    }
  }

  lemma FirstIsNewest(first: Row, rest: seq<Row>)
    requires NewestFirst(rest) && forall i :: 0 <= i < |rest| ==> rest[i].id < first.id
    ensures NewestFirst([first] + rest)
  {
  }

  lemma {:induction false} UserOrdersHasAll(orders: seq<Order>, n: nat, user: UserId, o: OrderId)
    requires o < n <= |orders| && orders[o].user == user
    ensures Row(o, orders[o]) in UserOrders(orders, n, user)
  {
    if o < n - 1 {
      UserOrdersHasAll(orders, n - 1, user, o);
    }
  }

  /** A list load returns the user's orders, most recent first. */
  lemma UserOrdersAreNewestFirst(orders: seq<Order>, user: UserId)
    ensures var rows := UserOrders(orders, |orders|, user); NewestFirst(rows) && OrdersOf(orders, user, rows)
  {
    var rows := UserOrders(orders, |orders|, user);
    UserOrdersDescend(orders, |orders|, user);
    forall i | 0 <= i < |rows|
      ensures rows[i].id < |orders| && orders[rows[i].id] == rows[i].order && rows[i].order.user == user
    {
      assert rows[i] in rows;
    }
    forall o | 0 <= o < |orders| && orders[o].user == user ensures Row(o, orders[o]) in rows {
      UserOrdersHasAll(orders, |orders|, user, o);
    }
  }

  predicate AllTerminal(rows: seq<Row>) {
    forall i :: 0 <= i < |rows| ==> IsTerminalStatus(rows[i].order.status)
  }

  /** No order in the list will ever change again. */
  predicate AllFinished(rows: seq<Row>) {
    forall i :: 0 <= i < |rows| ==> rows[i].order.status in {COMPLETED, FAILED, CANCELLED}
  }

  lemma TerminalIsFinished(rows: seq<Row>)
    ensures AllTerminal(rows) <==> AllFinished(rows)
  {
    forall i | 0 <= i < |rows|
      ensures IsTerminalStatus(rows[i].order.status) <==> rows[i].order.status in {COMPLETED, FAILED, CANCELLED}
    {
      TransitionRules(rows[i].order.status, PENDING);
    }
  }

  // ---------- the steps ----------

  /** Users whose list somebody has loaded and not written back yet. */
  predicate ListInFlight(c: Cached, user: UserId) {
    exists r | r in c.readers :: c.readers[r].ListLoaded? && c.readers[r].user == user
  }

  predicate CanStep(c: Cached, step: CacheStep) {
    match step
    case SagaStep(st) => Enabled(c.saga, st) && !(st.Request? && st.request.CreateStep?)
    case CreateOrderStep(req, _, _) => req !in c.creators
    case DelStep(req) => req in c.creators
    case LostDelStep(req) => req in c.creators
    case LoadOneStep(r, _, _) => r !in c.readers
    case LoadListStep(r, _) => r !in c.readers
    case WriteBackStep(r) => r in c.readers
    case AbandonStep(r) => r in c.readers
    case EvictOneStep(_) => true
    case EvictListStep(_) => true
  }

  /** A loaded value is stored only if everything in it is terminal. */
  function WriteBack(c: Cached, r: nat): Cached
    requires r in c.readers
  {
    var done := c.(readers := Without(c.readers, r));
    match c.readers[r]
    case OneLoaded(id, order) =>
      if IsTerminalStatus(order.status) then done.(byId := c.byId[id := order]) else done
    case ListLoaded(user, listing) =>
      if AllTerminal(listing.rows) then done.(lists := c.lists[user := listing]) else done
  }

  function LoadOne(c: Cached, r: nat, id: OrderId, user: UserId): Cached {
    match DbLookup(c.saga.db, id, user)
    case None => c
    case Some(order) => c.(readers := c.readers[r := OneLoaded(id, order)])
  }

  function LoadList(c: Cached, r: nat, user: UserId): Cached {
    var orders := c.saga.db.orders;
    c.(readers := c.readers[r := ListLoaded(user, Listing(UserOrders(orders, |orders|, user), |orders|))])
  }

  /** createOrder's transaction; its del of the owner's list is a later step. */
  function CommitCreate(c: Cached, req: nat, user: UserId, lines: seq<Line>): Cached {
    c.(saga := DoCreate(c.saga, user, lines), creators := c.creators[req := user],
       missed := if ListInFlight(c, user) then c.missed + {user} else c.missed)
  }

  function TakeStep(c: Cached, step: CacheStep): Cached
    requires CanStep(c, step)
  {
    match step
    case SagaStep(st) => c.(saga := Apply(c.saga, st))
    case CreateOrderStep(req, user, lines) => CommitCreate(c, req, user, lines)
    case DelStep(req) => c.(lists := Without(c.lists, c.creators[req]), creators := Without(c.creators, req))
    case LostDelStep(req) => c.(missed := c.missed + {c.creators[req]}, creators := Without(c.creators, req))
    case LoadOneStep(r, id, user) => LoadOne(c, r, id, user)
    case LoadListStep(r, user) => LoadList(c, r, user)
    case WriteBackStep(r) => WriteBack(c, r)
    case AbandonStep(r) => c.(readers := Without(c.readers, r))
    case EvictOneStep(id) => c.(byId := Without(c.byId, id))
    case EvictListStep(user) => c.(lists := Without(c.lists, user))
  }

  ghost predicate NextCached(c: Cached, c': Cached) {
    exists step :: CanStep(c, step) && c' == TakeStep(c, step)
  }

  ghost predicate Follows(run: seq<Cached>, i: nat)
    requires i + 1 < |run|
  {
    NextCached(run[i], run[i + 1])
  }

  ghost predicate IsCachedRun(run: seq<Cached>) {
    && run != [] && Init(run[0].saga)
    && run[0].byId == map[] && run[0].lists == map[] && run[0].readers == map[]
    && run[0].creators == map[] && run[0].missed == {}
    && forall i: nat :: i + 1 < |run| ==> Follows(run, i)
  }

  ghost predicate CachedReachable(c: Cached) {
    exists run :: IsCachedRun(run) && Last(run) == c
  }

  // ---------- a read with nothing in between ----------

  /** A by-id miss: the owner's row is stored if it is terminal, and nothing else changes. */
  function GetSteps(c: Cached, r: nat, id: OrderId, user: UserId): Cached
    requires r !in c.readers
  {
    var loaded := TakeStep(c, LoadOneStep(r, id, user));
    if r in loaded.readers then TakeStep(loaded, WriteBackStep(r)) else loaded
  }

  lemma GetStepsAlone(c: Cached, r: nat, id: OrderId, user: UserId)
    requires r !in c.readers
    ensures var orders := c.saga.db.orders;
      GetSteps(c, r, id, user) ==
        if id < |orders| && orders[id].user == user && orders[id].status in {COMPLETED, FAILED, CANCELLED}
        then c.(byId := c.byId[id := orders[id]]) else c
  {
    if id < |c.saga.db.orders| {
      var reader := OneLoaded(id, c.saga.db.orders[id]);
      AddedAndRemoved(c.readers, r, reader, reader);
    }
  }

  function ListSteps(c: Cached, r: nat, user: UserId): Cached
    requires r !in c.readers
  {
    TakeStep(TakeStep(c, LoadListStep(r, user)), WriteBackStep(r))
  }

  /** What a list miss leaves behind. */
  predicate StoredIfTerminal(c: Cached, c': Cached, user: UserId, rows: seq<Row>) {
    c' == if AllFinished(rows) then c.(lists := c.lists[user := Listing(rows, |c.saga.db.orders|)]) else c
  }

  lemma ListStepsStore(c: Cached, r: nat, user: UserId)
    requires r !in c.readers
    ensures StoredIfTerminal(c, ListSteps(c, r, user), user, UserOrders(c.saga.db.orders, |c.saga.db.orders|, user))
  {
    var rows := UserOrders(c.saga.db.orders, |c.saga.db.orders|, user);
    var loaded := ListLoaded(user, Listing(rows, |c.saga.db.orders|));
    AddedAndRemoved(c.readers, r, loaded, loaded);
    TerminalIsFinished(rows);
  }

  /** A list miss: the user's orders, most recent first, are stored if all of them are terminal. */
  lemma ListStepsAlone(c: Cached, r: nat, user: UserId)
    requires r !in c.readers
    ensures exists rows ::
      && NewestFirst(rows) && OrdersOf(c.saga.db.orders, user, rows)
      && StoredIfTerminal(c, ListSteps(c, r, user), user, rows)
  {
    ListStepsStore(c, r, user);
    UserOrdersAreNewestFirst(c.saga.db.orders, user);
  }

  // ---------- the invariant ----------

  predicate OneOk(orders: seq<Order>, id: OrderId, order: Order) {
    id < |orders| && (IsTerminalStatus(order.status) ==> order == orders[id])
  }

  ghost predicate ListOk(orders: seq<Order>, user: UserId, l: Listing) {
    l.seen <= |orders| && (AllTerminal(l.rows) ==> l.rows == UserOrders(orders, l.seen, user))
  }

  /** The user has created no order since `seen`. */
  predicate NoneSince(orders: seq<Order>, seen: nat, user: UserId) {
    forall o :: seen <= o < |orders| ==> orders[o].user != user
  }

  predicate DelPending(c: Cached, user: UserId) {
    exists req | req in c.creators :: c.creators[req] == user
  }

  ghost predicate EntryOk(c: Cached, id: OrderId)
    requires id in c.byId
  {
    IsTerminalStatus(c.byId[id].status) && OneOk(c.saga.db.orders, id, c.byId[id])
  }

  ghost predicate ListEntryOk(c: Cached, user: UserId)
    requires user in c.lists
  {
    && AllTerminal(c.lists[user].rows) && ListOk(c.saga.db.orders, user, c.lists[user])
    && (user in c.missed || DelPending(c, user) || NoneSince(c.saga.db.orders, c.lists[user].seen, user))
  }

  ghost predicate ReaderOk(c: Cached, r: nat)
    requires r in c.readers
  {
    match c.readers[r]
    case OneLoaded(id, order) => OneOk(c.saga.db.orders, id, order)
    case ListLoaded(user, l) =>
      ListOk(c.saga.db.orders, user, l) && (user in c.missed || NoneSince(c.saga.db.orders, l.seen, user))
  }

  ghost predicate CacheInv(c: Cached) {
    && Inv(c.saga)
    && (forall id {:trigger EntryOk(c, id)} | id in c.byId :: EntryOk(c, id))
    && (forall user {:trigger ListEntryOk(c, user)} | user in c.lists :: ListEntryOk(c, user))
    && (forall r {:trigger ReaderOk(c, r)} | r in c.readers :: ReaderOk(c, r))
  }

  // ---------- cached rows survive every saga step ----------

  lemma {:induction false} UserOrdersFrozen(a: seq<Order>, b: seq<Order>, n: nat, user: UserId)
    requires n <= |a| && n <= |b|
    requires forall o :: 0 <= o < n ==> a[o].user == b[o].user && (IsTerminalStatus(a[o].status) ==> a[o] == b[o])
    requires AllTerminal(UserOrders(a, n, user))
    ensures UserOrders(b, n, user) == UserOrders(a, n, user)
  {
    if n > 0 {
      var rest := UserOrders(a, n - 1, user);
      if a[n - 1].user == user {
        var all := UserOrders(a, n, user);
        assert all == [Row(n - 1, a[n - 1])] + rest;
        assert IsTerminalStatus(all[0].order.status);
        assert forall i :: 0 <= i < |rest| ==> rest[i] == all[i + 1];
      }
      UserOrdersFrozen(a, b, n - 1, user);
    }
  }

  /** Rows keep their owner, and terminal rows keep everything. */
  ghost predicate RowsLater(a: seq<Order>, b: seq<Order>) {
    && |a| <= |b|
    && forall o :: 0 <= o < |a| ==> a[o].user == b[o].user && (IsTerminalStatus(a[o].status) ==> a[o] == b[o])
  }

  lemma LaterRows(s: State, s': State)
    requires Later(s, s')
    ensures RowsLater(s.db.orders, s'.db.orders)
  {
    forall o | 0 <= o < |s.db.orders|
      ensures s.db.orders[o].user == s'.db.orders[o].user &&
              (IsTerminalStatus(s.db.orders[o].status) ==> s.db.orders[o] == s'.db.orders[o])
    {
      assert OrderLater(s.db, s'.db, o);
    }
  }

  lemma ListOkLater(a: seq<Order>, b: seq<Order>, user: UserId, l: Listing)
    requires RowsLater(a, b) && ListOk(a, user, l)
    ensures ListOk(b, user, l)
  {
    if AllTerminal(l.rows) {
      UserOrdersFrozen(a, b, l.seen, user);
    }
  }

  lemma WorkAddsNoOrders(s: State, h: nat)
    requires CanCommit(s, h) && Work(s, h).Ok?
    ensures |Work(s, h).value.orders| == |s.db.orders|
  {
  }

  lemma CommitAddsNoOrders(s: State, h: nat)
    requires CanCommit(s, h)
    ensures |DoCommit(s, h).db.orders| == |s.db.orders|
  {
    if Work(s, h).Ok? { WorkAddsNoOrders(s, h); }
  }

  lemma DeliveriesAddNoOrders(s: State, step: DeliveryStep)
    requires CanDelivery(s, step)
    ensures |DoDelivery(s, step).db.orders| == |s.db.orders|
  {
    if step.CommitStep? { CommitAddsNoOrders(s, step.h); }
  }

  lemma CancelClaimAddsNoOrders(s: State, req: nat)
    requires CanCancelClaim(s, req)
    ensures |DoCancelClaim(s, req).db.orders| == |s.db.orders|
  {
  }

  lemma RequestsAddNoOrders(s: State, step: RequestStep)
    requires CanRequest(s, step) && !step.CreateStep?
    ensures |DoRequest(s, step).db.orders| == |s.db.orders|
  {
    if step.CancelClaimStep? { CancelClaimAddsNoOrders(s, step.req); }
  }

  lemma GatewayAddsNoOrders(s: State, step: GatewayStep)
    requires CanGateway(s, step)
    ensures |DoGateway(s, step).db.orders| == |s.db.orders|
  {
  }

  /** No step but a create adds an order. */
  lemma OnlyCreateAddsOrders(s: State, step: Step)
    requires Enabled(s, step) && !(step.Request? && step.request.CreateStep?)
    ensures |Apply(s, step).db.orders| == |s.db.orders|
  {
    match step
    case Request(r) => RequestsAddNoOrders(s, r);
    case Relay(r) =>
    case Delivery(d) => DeliveriesAddNoOrders(s, d);
    case Gateway(g) => GatewayAddsNoOrders(s, g);
  }

  lemma SagaStepKeeps(c: Cached, st: Step)
    requires CacheInv(c) && CanStep(c, SagaStep(st))
    ensures CacheInv(TakeStep(c, SagaStep(st)))
  {
    var c' := TakeStep(c, SagaStep(st));
    StepKeepsInv(c.saga, st);
    StepLater(c.saga, st);
    LaterRows(c.saga, c'.saga);
    OnlyCreateAddsOrders(c.saga, st);
    RowsMoveOn(c, c');
  }

  lemma RowsMoveOn(c: Cached, c': Cached)
    requires CacheInv(c) && Inv(c'.saga) && c' == c.(saga := c'.saga)
    requires RowsLater(c.saga.db.orders, c'.saga.db.orders) && |c'.saga.db.orders| == |c.saga.db.orders|
    ensures CacheInv(c')
  {
    var a, b := c.saga.db.orders, c'.saga.db.orders;
    forall id | id in c'.byId ensures EntryOk(c', id) {
      assert EntryOk(c, id);
    }
    forall user | user in c'.lists ensures ListEntryOk(c', user) {
      assert ListEntryOk(c, user) && (DelPending(c, user) ==> DelPending(c', user));
      ListOkLater(a, b, user, c.lists[user]);
    }
    forall r | r in c'.readers ensures ReaderOk(c', r) {
      assert ReaderOk(c, r);
      if c.readers[r].ListLoaded? { ListOkLater(a, b, c.readers[r].user, c.readers[r].listing); }
    }
  }

  lemma CreateKeepsList(c: Cached, req: nat, user: UserId, lines: seq<Line>, u: UserId)
    requires u in c.lists && ListEntryOk(c, u) && req !in c.creators
    ensures ListEntryOk(CommitCreate(c, req, user, lines), u)
  {
    var c' := CommitCreate(c, req, user, lines);
    if u == user {
      assert req in c'.creators && c'.creators[req] == user;
    } else if DelPending(c, u) {
      var q :| q in c.creators && c.creators[q] == u;
      assert q in c'.creators && c'.creators[q] == u;
    }
    ListOkLater(c.saga.db.orders, c'.saga.db.orders, u, c.lists[u]);
  }

  lemma CreateKeepsReader(c: Cached, req: nat, user: UserId, lines: seq<Line>, r: nat)
    requires r in c.readers && ReaderOk(c, r)
    ensures ReaderOk(CommitCreate(c, req, user, lines), r)
  {
    var c' := CommitCreate(c, req, user, lines);
    if c.readers[r].ListLoaded? {
      ListOkLater(c.saga.db.orders, c'.saga.db.orders, c.readers[r].user, c.readers[r].listing);
    }
  }

  lemma CommitCreateKeeps(c: Cached, req: nat, user: UserId, lines: seq<Line>)
    requires CacheInv(c) && req !in c.creators
    ensures CacheInv(CommitCreate(c, req, user, lines))
  {
    var c' := CommitCreate(c, req, user, lines);
    StepKeepsInv(c.saga, Request(CreateStep(user, lines)));
    forall id | id in c'.byId ensures EntryOk(c', id) {
      assert EntryOk(c, id);
    }
    forall u | u in c'.lists ensures ListEntryOk(c', u) {
      assert ListEntryOk(c, u);
      CreateKeepsList(c, req, user, lines, u);
    }
    forall r | r in c'.readers ensures ReaderOk(c', r) {
      assert ReaderOk(c, r);
      CreateKeepsReader(c, req, user, lines, r);
    }
  }

  /** A load: one more reader, whose rows are the current ones. */
  lemma NewReaderKeeps(c: Cached, c': Cached, r: nat)
    requires CacheInv(c) && r in c'.readers && ReaderOk(c', r)
    requires c' == c.(readers := c.readers[r := c'.readers[r]])
    ensures CacheInv(c')
  {
    forall id | id in c'.byId ensures EntryOk(c', id) { assert EntryOk(c, id); }
    forall user | user in c'.lists ensures ListEntryOk(c', user) {
      assert ListEntryOk(c, user) && (DelPending(c, user) ==> DelPending(c', user));
    }
    forall q | q in c'.readers ensures ReaderOk(c', q) {
      if q != r { assert ReaderOk(c, q); }
    }
  }

  lemma LoadsKeep(c: Cached, step: CacheStep)
    requires CacheInv(c) && CanStep(c, step) && (step.LoadOneStep? || step.LoadListStep?)
    ensures CacheInv(TakeStep(c, step))
  {
    var c' := TakeStep(c, step);
    if c' != c {
      assert ReaderOk(c', step.r);
      NewReaderKeeps(c, c', step.r);
    }
  }

  lemma WriteBackKeeps(c: Cached, r: nat)
    requires CacheInv(c) && r in c.readers
    ensures CacheInv(WriteBack(c, r))
  {
    var c' := WriteBack(c, r);
    assert ReaderOk(c, r);
    forall id | id in c'.byId ensures EntryOk(c', id) {
      if id in c.byId { assert EntryOk(c, id); }
    }
    forall user | user in c'.lists ensures ListEntryOk(c', user) {
      if user in c.lists { assert ListEntryOk(c, user) && (DelPending(c, user) ==> DelPending(c', user)); }
    }
    forall q | q in c'.readers ensures ReaderOk(c', q) { assert ReaderOk(c, q); }
  }

  lemma DelKeeps(c: Cached, step: CacheStep)
    requires CacheInv(c) && CanStep(c, step) && (step.DelStep? || step.LostDelStep?)
    ensures CacheInv(TakeStep(c, step))
  {
    var c' := TakeStep(c, step);
    forall id | id in c'.byId ensures EntryOk(c', id) { assert EntryOk(c, id); }
    forall user | user in c'.lists ensures ListEntryOk(c', user) {
      assert ListEntryOk(c, user);
      if user != c.creators[step.req] && DelPending(c, user) {
        var q :| q in c.creators && c.creators[q] == user;
        assert q in c'.creators && c'.creators[q] == user;
      }
    }
    forall r | r in c'.readers ensures ReaderOk(c', r) { assert ReaderOk(c, r); }
  }

  lemma ForgettingKeeps(c: Cached, step: CacheStep)
    requires CacheInv(c) && CanStep(c, step)
    requires step.AbandonStep? || step.EvictOneStep? || step.EvictListStep?
    ensures CacheInv(TakeStep(c, step))
  {
    var c' := TakeStep(c, step);
    forall id | id in c'.byId ensures EntryOk(c', id) { assert EntryOk(c, id); }
    forall user | user in c'.lists ensures ListEntryOk(c', user) {
      assert ListEntryOk(c, user) && (DelPending(c, user) ==> DelPending(c', user));
    }
    forall r | r in c'.readers ensures ReaderOk(c', r) { assert ReaderOk(c, r); }
  }

  lemma CacheStepKeeps(c: Cached, step: CacheStep)
    requires CacheInv(c) && CanStep(c, step)
    ensures CacheInv(TakeStep(c, step))
  {
    if step.SagaStep? {
      SagaStepKeeps(c, step.step);
    } else if step.CreateOrderStep? {
      CommitCreateKeeps(c, step.req, step.user, step.lines);
    } else if step.LoadOneStep? || step.LoadListStep? {
      LoadsKeep(c, step);
    } else if step.WriteBackStep? {
      WriteBackKeeps(c, step.r);
    } else if step.DelStep? || step.LostDelStep? {
      DelKeeps(c, step);
    } else {
      ForgettingKeeps(c, step);
    }
  }

  lemma {:induction false} CachedRunKeepsInv(run: seq<Cached>, i: nat)
    requires IsCachedRun(run) && i < |run|
    ensures CacheInv(run[i])
  {
    if i > 0 {
      CachedRunKeepsInv(run, i - 1);
      assert Follows(run, i - 1);
      var step :| CanStep(run[i - 1], step) && run[i] == TakeStep(run[i - 1], step);
      CacheStepKeeps(run[i - 1], step);
    } else {
      assert IsRun([run[0].saga]);
      RunKeepsInv([run[0].saga], 0);
    }
  }

  lemma CachedReachableInv(c: Cached)
    requires CachedReachable(c)
    ensures CacheInv(c)
  {
    var run :| IsCachedRun(run) && Last(run) == c;
    CachedRunKeepsInv(run, |run| - 1);
  }

  // ---------- what a reader may rely on ----------

  /** The cached read refines the owner-scoped database read, even if no invalidation ever succeeds. */
  lemma CachedReadIsDatabaseRead(c: Cached, id: OrderId, user: UserId)
    requires CachedReachable(c)
    ensures GetOrderForUser(c, id, user) == DbLookup(c.saga.db, id, user)
  {
    CachedReachableInv(c);
    if id in c.byId { assert EntryOk(c, id); }
  }

  /** A cache hit never lets initiatePayment or cancelOrder past its status check. */
  lemma HitsAreRefused(c: Cached, id: OrderId)
    requires CachedReachable(c) && id in c.byId
    ensures !AwaitingPayment(c.byId[id]) && !Cancellable(c.byId[id])
  {
    CachedReachableInv(c);
    assert EntryOk(c, id);
  }

  /** A cached list is right about every order it contains and lacks only orders created
      after the read that filled it. */
  lemma CachedListIsARecentView(c: Cached, user: UserId)
    requires CachedReachable(c) && user in c.lists
    ensures c.lists[user].seen <= |c.saga.db.orders|
    ensures c.lists[user].rows == UserOrders(c.saga.db.orders, c.lists[user].seen, user)
  {
    CachedReachableInv(c);
    assert ListEntryOk(c, user);
  }

  lemma {:induction false} UserOrdersGrow(orders: seq<Order>, n: nat, k: nat, user: UserId)
    requires n <= k <= |orders|
    ensures |UserOrders(orders, n, user)| <= |UserOrders(orders, k, user)|
    ensures UserOrders(orders, n, user) == UserOrders(orders, k, user) <==>
            forall o :: n <= o < k ==> orders[o].user != user
    ensures (exists o :: n <= o < k && orders[o].user == user) ==>
            |UserOrders(orders, n, user)| < |UserOrders(orders, k, user)|
  {
    if n < k {
      UserOrdersGrow(orders, n, k - 1, user);
    }
  }

  /** The list is complete exactly when its owner has created nothing since it was read. */
  lemma CachedListCompleteIff(c: Cached, user: UserId)
    requires CachedReachable(c) && user in c.lists
    ensures c.lists[user].rows == UserOrders(c.saga.db.orders, |c.saga.db.orders|, user) <==>
            NoneSince(c.saga.db.orders, c.lists[user].seen, user)
  {
    CachedListIsARecentView(c, user);
    UserOrdersGrow(c.saga.db.orders, c.lists[user].seen, |c.saga.db.orders|, user);
  }

  /** ... which is the case whenever no load overlapped a create, no del was lost and none is outstanding. */
  lemma CachedListIsComplete(c: Cached, user: UserId)
    requires CachedReachable(c) && user in c.lists && user !in c.missed && !DelPending(c, user)
    ensures c.lists[user].rows == UserOrders(c.saga.db.orders, |c.saga.db.orders|, user)
  {
    CachedReachableInv(c);
    assert ListEntryOk(c, user);
    CachedListCompleteIff(c, user);
  }

  lemma ReachableCacheStep(c: Cached, step: CacheStep)
    requires CachedReachable(c) && CanStep(c, step)
    ensures CachedReachable(TakeStep(c, step))
  {
    var run :| IsCachedRun(run) && Last(run) == c;
    var run' := run + [TakeStep(c, step)];
    forall i: nat | i + 1 < |run'| ensures Follows(run', i) {
      if i == |run| - 1 {
        assert CanStep(run'[i], step) && run'[i + 1] == TakeStep(run'[i], step);
      } else {
        assert Follows(run, i);
      }
    }
    assert IsCachedRun(run') && Last(run') == TakeStep(c, step);
  }

  function Empty(): Cached {
    Cached(State(Db([], map[], [], {}, {}, map[]), Broker(multiset{}, multiset{}, multiset{}),
                 map[], map[], map[], map[], 0, [], map[], multiset{}),
           map[], map[], map[], map[], {})
  }

  /** User 7's empty list has been loaded. */
  function Loaded(): Cached {
    Empty().(readers := map[0 := ListLoaded(7, Listing([], 0))])
  }

  /** User 7's empty list was loaded, then user 7 has created an order; its del may still be due. */
  function Overlap(creators: map<nat, UserId>): Cached {
    Loaded().(saga := DoCreate(Empty().saga, 7, []), creators := creators, missed := {7})
  }

  /** The create has sent its del; the loaded list is written back after it. */
  function Late(): Cached {
    Overlap(map[]).(lists := map[7 := Listing([], 0)], readers := map[])
  }

  lemma LoadedIsReachable()
    ensures CachedReachable(Loaded())
  {
    assert IsCachedRun([Empty()]) && Last([Empty()]) == Empty();
    ReachableCacheStep(Empty(), LoadListStep(0, 7));
    assert LoadList(Empty(), 0, 7) == Loaded();
  }

  lemma OverlapIsReachable()
    ensures CachedReachable(Overlap(map[0 := 7]))
  {
    LoadedIsReachable();
    var c := Loaded();
    ReachableCacheStep(c, CreateOrderStep(0, 7, []));
    assert ListInFlight(c, 7) by { assert c.readers[0].ListLoaded? && c.readers[0].user == 7; }
    assert {} + {7} == {7};
    assert CommitCreate(c, 0, 7, []) == Overlap(map[0 := 7]);
  }

  lemma DelIsSent()
    ensures CachedReachable(Overlap(map[]))
  {
    OverlapIsReachable();
    var c := Overlap(map[0 := 7]);
    ReachableCacheStep(c, DelStep(0));
    assert Without(c.creators, 0) == map[] && Without(c.lists, 7) == map[];
    assert TakeStep(c, DelStep(0)) == Overlap(map[]);
  }

  /** Without that condition the list can be short until it expires or the next del: a load that overlaps a create
      writes its snapshot back after the create's own invalidation. */
  lemma StaleListExists()
    ensures exists c, user ::
      && CachedReachable(c) && user in c.lists && c.creators == map[] && c.readers == map[]
      && c.lists[user].rows == [] && UserOrders(c.saga.db.orders, |c.saga.db.orders|, user) != []
  {
    DelIsSent();
    var c := Overlap(map[]);
    ReachableCacheStep(c, WriteBackStep(0));
    assert Without(c.readers, 0) == map[];
    assert WriteBack(c, 0) == Late();
    assert UserOrders(Late().saga.db.orders, 1, 7) == [Row(0, Late().saga.db.orders[0])] + [];
  }

  // ---------- the reads as they run, with nothing interleaved ----------

  /** The order reads of OrdersService over the orders table and the two families of cache keys. */
  class OrderReads {
    var orders: seq<Order>
    var byId: map<OrderId, Order>
    var lists: map<UserId, seq<Row>>

    ghost predicate Valid()
      reads this
    {
      && (forall id | id in byId :: IsTerminalStatus(byId[id].status) && OneOk(orders, id, byId[id]))
      && (forall u | u in lists ::
            AllTerminal(lists[u]) && exists n: nat :: n <= |orders| && lists[u] == UserOrders(orders, n, u))
    }

    /** getOrderForUser: the result is the owner-scoped row, cached or not. */
    method Get(id: OrderId, user: UserId) returns (order: Option<Order>)
      requires Valid()
      modifies this`byId
      ensures Valid()
      ensures order == if id < |orders| && orders[id].user == user then Some(orders[id]) else None
      ensures byId ==
        if !(id in old(byId) && old(byId)[id].user == user) && order.Some? &&
           order.value.status in {COMPLETED, FAILED, CANCELLED}
        then old(byId)[id := order.value] else old(byId)
    {
      if id in byId && byId[id].user == user { return Some(byId[id]); }
      if id >= |orders| || orders[id].user != user { return None; }
      order := Some(orders[id]);
      if IsTerminalStatus(orders[id].status) {
        byId := byId[id := orders[id]];
      }
    }

    /** listOrdersForUser: the user's orders, most recent first, up to some point in the past on a hit
        and all of them on a miss. */
    method List(user: UserId) returns (rows: seq<Row>)
      requires Valid()
      modifies this`lists
      ensures Valid()
      ensures exists n: nat :: n <= |orders| && rows == UserOrders(orders, n, user)
      ensures user !in old(lists) ==> rows == UserOrders(orders, |orders|, user)
      // on a miss: all of the user's orders as they are, most recent first, cached if all are terminal
      ensures user !in old(lists) ==> NewestFirst(rows) && OrdersOf(orders, user, rows)
      ensures user !in old(lists) ==>
        lists == if AllFinished(rows) then old(lists)[user := rows] else old(lists)
      ensures user in old(lists) ==> rows == old(lists)[user] && lists == old(lists)
    {
      if user in lists { return lists[user]; }
      UserOrdersAreNewestFirst(orders, user);
      TerminalIsFinished(UserOrders(orders, |orders|, user));
      rows := UserOrders(orders, |orders|, user);
      if AllTerminal(rows) {
        lists := lists[user := rows];
      }
    }
  }
}
