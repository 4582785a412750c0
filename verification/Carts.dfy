/** Carts and their one-shot checkout (src/modules/cart/cart.service.ts) under concurrent requests. */
module Carts {
  import opened Common

  type CartId = nat
  type Items = map<ProductId, nat>

  /** What setItem and removeItem do to one line of a cart. */
  datatype Edit = Put(product: ProductId, quantity: nat) | Drop(product: ProductId)

  /** History: every edit of the items, in order; `won` is what the checkout that claimed this cart had
      read; `abandoned` says that its winner died before calling createOrder. */
  datatype Cart = Cart(
    user: UserId,
    checkedOut: bool,
    items: Items,
    edits: seq<Edit>,
    won: Option<Items>,
    abandoned: bool)

  function NewCart(user: UserId): Cart {
    Cart(user, false, map[], [], None, false)
  }

  function Edited(items: Items, e: Edit): Items {
    match e
    case Put(p, q) => items[p := q]
    case Drop(p) => items - {p}
  }

  function WithEdit(cart: Cart, e: Edit): Cart {
    cart.(items := Edited(cart.items, e), edits := cart.edits + [e])
  }

  /** The order a checkout creates. */
  datatype CartOrder = CartOrder(cart: CartId, user: UserId, lines: Items)

  datatype Operation = GetCart | SetItem(product: ProductId, quantity: nat) | RemoveItem(product: ProductId) | Checkout

  /** Where a request stands. The read, the lazily created cart, the write and the order are separate statements. */
  datatype CartRequest =
    | NoCart(user: UserId, op: Operation)                        // findOpenCart returned null
    | Collided(user: UserId, op: Operation)                      // the one-open-cart index rejected the insert
    | HasCart(user: UserId, cart: CartId, read: Items, since: nat, op: Operation) // `since` is history: edits so far
    | CheckedOut(user: UserId, cart: CartId, read: Items)        // claimed; createOrder not called yet

  datatype CartState = CartState(
    carts: seq<Cart>,
    requests: map<nat, CartRequest>,
    orders: seq<CartOrder>,
    catalogue: set<ProductId>)   // the products that exist

  datatype CartStep =
    | Find(r: nat, user: UserId, op: Operation)
    | InsertCart(r: nat)
    | FindAgain(r: nat)
    | Perform(r: nat)
    | PlaceOrder(r: nat)
    | Abandon(r: nat)

  predicate IsOpen(s: CartState, c: CartId, user: UserId) {
    c < |s.carts| && s.carts[c].user == user && !s.carts[c].checkedOut
  }

  /** findOpenCart: the open cart of the user, if any. */
  function OpenCart(carts: seq<Cart>, user: UserId): (c: Option<CartId>)
    ensures c.Some? ==> c.value < |carts| && carts[c.value].user == user && !carts[c.value].checkedOut
    ensures c.None? ==> forall i :: 0 <= i < |carts| ==> carts[i].user != user || carts[i].checkedOut
  {
    if carts == [] then None
    else if Last(carts).user == user && !Last(carts).checkedOut then Some(|carts| - 1)
    else OpenCart(carts[..|carts| - 1], user)
  }

  function Found(s: CartState, r: nat, user: UserId, op: Operation): CartState {
    match OpenCart(s.carts, user)
    case Some(c) => s.(requests := s.requests[r := HasCart(user, c, s.carts[c].items, |s.carts[c].edits|, op)])
    case None => s.(requests := s.requests[r := NoCart(user, op)])
  }

  /** INSERT of a cart, under the partial unique index on open carts. */
  function Inserted(s: CartState, r: nat): CartState
    requires r in s.requests && s.requests[r].NoCart?
  {
    var NoCart(user, op) := s.requests[r];
    if OpenCart(s.carts, user).Some? then s.(requests := s.requests[r := Collided(user, op)])
    else
      s.(carts := s.carts + [NewCart(user)],
         requests := s.requests[r := HasCart(user, |s.carts|, map[], 0, op)])
  }

  /** The operation itself, on the cart the request found, whatever has become of that cart since. */
  function Performed(s: CartState, r: nat): CartState
    requires r in s.requests && s.requests[r].HasCart? && s.requests[r].cart < |s.carts|
  {
    var HasCart(user, c, read, since, op) := s.requests[r];
    var ended := s.(requests := Without(s.requests, r));
    match op
    case GetCart => ended
    case SetItem(p, q) =>
      if p in s.catalogue then ended.(carts := s.carts[c := WithEdit(s.carts[c], Put(p, q))]) else ended
    case RemoveItem(p) => ended.(carts := s.carts[c := WithEdit(s.carts[c], Drop(p))])
    case Checkout =>
      if read == map[] || s.carts[c].checkedOut then ended
      else s.(carts := s.carts[c := s.carts[c].(checkedOut := true, won := Some(read))],
              requests := s.requests[r := CheckedOut(user, c, read)])
  }

  /** The request dies where it stands; a checkout that has claimed its cart leaves it without an order. */
  function Abandoned(s: CartState, r: nat): CartState
    requires r in s.requests
  {
    var ended := s.(requests := Without(s.requests, r));
    if s.requests[r].CheckedOut? && s.requests[r].cart < |s.carts| then
      ended.(carts := s.carts[s.requests[r].cart := s.carts[s.requests[r].cart].(abandoned := true)])
    else ended
  }

  predicate CanCart(s: CartState, step: CartStep) {
    match step
    case Find(r, _, _) => r !in s.requests
    case InsertCart(r) => r in s.requests && s.requests[r].NoCart?
    case FindAgain(r) => r in s.requests && s.requests[r].Collided?
    case Perform(r) => r in s.requests && s.requests[r].HasCart? && s.requests[r].cart < |s.carts|
    case PlaceOrder(r) => r in s.requests && s.requests[r].CheckedOut?
    case Abandon(r) => r in s.requests
  }

  function DoCart(s: CartState, step: CartStep): CartState
    requires CanCart(s, step)
  {
    match step
    case Find(r, user, op) => Found(s, r, user, op)
    case InsertCart(r) => Inserted(s, r)
    case FindAgain(r) =>
      // the winner's cart, or the original error if it is gone by now
      if OpenCart(s.carts, s.requests[r].user).Some? then Found(s, r, s.requests[r].user, s.requests[r].op)
      else s.(requests := Without(s.requests, r))
    case Perform(r) => Performed(s, r)
    case PlaceOrder(r) =>
      s.(orders := s.orders + [CartOrder(s.requests[r].cart, s.requests[r].user, s.requests[r].read)],
         requests := Without(s.requests, r))
    case Abandon(r) => Abandoned(s, r)
  }

  ghost predicate NextCarts(s: CartState, s': CartState) {
    exists step :: CanCart(s, step) && s' == DoCart(s, step)
  }

  ghost predicate Follows(run: seq<CartState>, i: nat)
    requires i + 1 < |run|
  {
    NextCarts(run[i], run[i + 1])
  }

  ghost predicate IsCartRun(run: seq<CartState>) {
    && run != [] && run[0].carts == [] && run[0].requests == map[] && run[0].orders == []
    && forall i: nat :: i + 1 < |run| ==> Follows(run, i)
  }

  // ---------- a request with nothing in between ----------

  function OpenSteps(s: CartState, r: nat, user: UserId, op: Operation): CartState
    requires r !in s.requests
  {
    var found := DoCart(s, Find(r, user, op));
    if found.requests[r].NoCart? then DoCart(found, InsertCart(r)) else found
  }

  /** The steps of one request, one after the other. */
  function RequestSteps(s: CartState, r: nat, user: UserId, op: Operation): CartState
    requires r !in s.requests
  {
    var performed := DoCart(OpenSteps(s, r, user, op), Perform(r));
    if r in performed.requests then DoCart(performed, PlaceOrder(r)) else performed
  }

  /** The user's open cart, or a fresh one after the others. */
  function CartOf(s: CartState, user: UserId): CartId {
    match OpenCart(s.carts, user)
    case Some(c) => c
    case None => |s.carts|
  }

  function WithCart(s: CartState, user: UserId): seq<Cart> {
    if OpenCart(s.carts, user).Some? then s.carts else s.carts + [NewCart(user)]
  }

  lemma RequestFindsItsCart(s: CartState, r: nat, user: UserId, op: Operation)
    requires r !in s.requests
    ensures var c, carts := CartOf(s, user), WithCart(s, user);
      OpenSteps(s, r, user, op) ==
        s.(carts := carts, requests := s.requests[r := HasCart(user, c, carts[c].items, |carts[c].edits|, op)])
  {
  }

  function Outcome(s: CartState, user: UserId, op: Operation, c: CartId, carts: seq<Cart>): CartState
    requires c < |carts|
  {
    var cart := carts[c];
    match op
    case GetCart => s.(carts := carts)
    case SetItem(p, q) =>
      if p !in s.catalogue then s.(carts := carts)
      else s.(carts := carts[c := cart.(items := cart.items[p := q], edits := cart.edits + [Put(p, q)])])
    case RemoveItem(p) =>
      s.(carts := carts[c := cart.(items := cart.items - {p}, edits := cart.edits + [Drop(p)])])
    case Checkout =>
      if cart.items == map[] then s.(carts := carts)
      else s.(carts := carts[c := cart.(checkedOut := true, won := Some(cart.items))],
              orders := s.orders + [CartOrder(c, user, cart.items)])
  }

  /** Only a checkout of a cart with items is not finished by then: it owes the order. */
  lemma PerformedAlone(s: CartState, r: nat, user: UserId, op: Operation)
    requires r !in s.requests
    ensures var c, carts := CartOf(s, user), WithCart(s, user);
      DoCart(OpenSteps(s, r, user, op), Perform(r)) ==
        if op.Checkout? && carts[c].items != map[]
        then Outcome(s, user, op, c, carts).(orders := s.orders,
                                             requests := s.requests[r := CheckedOut(user, c, carts[c].items)])
        else Outcome(s, user, op, c, carts)
  {
    RequestFindsItsCart(s, r, user, op);
    var c, carts := CartOf(s, user), WithCart(s, user);
    var found := HasCart(user, c, carts[c].items, |carts[c].edits|, op);
    AddedAndRemoved(s.requests, r, found, found);
  }

  /** What each operation comes to: reading leaves the cart alone, setItem sets one known product, removeItem takes
      one out, and checkout turns a cart that has items into an order with exactly those. */
  lemma RequestStepsAlone(s: CartState, r: nat, user: UserId, op: Operation)
    requires r !in s.requests
    ensures RequestSteps(s, r, user, op) == Outcome(s, user, op, CartOf(s, user), WithCart(s, user))
  {
    PerformedAlone(s, r, user, op);
    var c, items := CartOf(s, user), WithCart(s, user)[CartOf(s, user)].items;
    var claimed := CheckedOut(user, c, items);
    AddedAndRemoved(s.requests, r, claimed, claimed);
    if op.Checkout? && items != map[] {
      assert s.requests[r := claimed][r] == claimed;
    }
  }

  /** A request whose insert collided goes on with the winner's cart, if that is still open. */
  lemma CollisionUsesTheWinner(s: CartState, r: nat)
    requires r in s.requests && s.requests[r].Collided?
    ensures var user, s' := s.requests[r].user, DoCart(s, FindAgain(r));
      && s'.carts == s.carts && s'.orders == s.orders
      && (r in s'.requests <==> exists c :: IsOpen(s, c, user))
      && (r in s'.requests ==>
            && s'.requests[r].HasCart? && IsOpen(s, s'.requests[r].cart, user)
            && s'.requests[r].op == s.requests[r].op && s'.requests[r].read == s.carts[s'.requests[r].cart].items)
  {
    if OpenCart(s.carts, s.requests[r].user).Some? {
      assert IsOpen(s, OpenCart(s.carts, s.requests[r].user).value, s.requests[r].user);
    }
  }

  // ---------- the invariant ----------

  /** Request `r` has claimed cart `c` and owes it an order. */
  predicate Owes(s: CartState, r: nat, c: CartId) {
    r in s.requests && s.requests[r].CheckedOut? && s.requests[r].cart == c
  }

  predicate OrderOf(s: CartState, o: nat, c: CartId) {
    o < |s.orders| && s.orders[o].cart == c
  }

  /** The cart was claimed by a checkout of its owner that had read `lines`. */
  predicate WonWith(s: CartState, c: CartId, user: UserId, lines: Items) {
    c < |s.carts| && s.carts[c].checkedOut && s.carts[c].user == user && s.carts[c].won == Some(lines) && lines != map[]
  }

  ghost predicate RequestOk(s: CartState, r: nat)
    requires r in s.requests
  {
    match s.requests[r]
    case HasCart(user, c, _, _, _) => c < |s.carts| && s.carts[c].user == user
    case CheckedOut(user, c, read) => WonWith(s, c, user, read) && forall o :: !OrderOf(s, o, c)
    case _ => true
  }

  ghost predicate OrderOk(s: CartState, o: nat)
    requires o < |s.orders|
  {
    WonWith(s, s.orders[o].cart, s.orders[o].user, s.orders[o].lines)
  }

  ghost predicate CartsOk(s: CartState) {
    && (forall c, d, user :: IsOpen(s, c, user) && IsOpen(s, d, user) ==> c == d)
    && (forall r {:trigger RequestOk(s, r)} | r in s.requests :: RequestOk(s, r))
    && (forall r, q, c :: Owes(s, r, c) && Owes(s, q, c) ==> r == q)
    && (forall o :: 0 <= o < |s.orders| ==> OrderOk(s, o))
    && (forall o, p, c :: OrderOf(s, o, c) && OrderOf(s, p, c) ==> o == p)
  }

  /** What never changes back: owners, checked-out carts, the winning snapshot, placed orders. */
  ghost predicate CartLater(s: CartState, s': CartState, c: CartId)
    requires c < |s.carts| && c < |s'.carts|
  {
    && s'.carts[c].user == s.carts[c].user
    && (s.carts[c].checkedOut ==> s'.carts[c].checkedOut && s'.carts[c].won == s.carts[c].won)
    && s.carts[c].edits <= s'.carts[c].edits
    && (s.carts[c].abandoned ==> s'.carts[c].abandoned)
  }

  ghost predicate CartsLater(s: CartState, s': CartState) {
    && |s.carts| <= |s'.carts| && s.orders <= s'.orders
    && forall c :: 0 <= c < |s.carts| ==> CartLater(s, s', c)
  }

  lemma StepCartsLater(s: CartState, step: CartStep)
    requires CanCart(s, step)
    ensures CartsLater(s, DoCart(s, step))
  {
  }

  /** A step that opens no cart and neither claims one nor places an order. */
  lemma PlainKeeps(s: CartState, s': CartState)
    requires CartsOk(s) && CartsLater(s, s') && |s'.carts| == |s.carts| && s'.orders == s.orders
    requires forall c :: 0 <= c < |s.carts| ==> s'.carts[c].checkedOut == s.carts[c].checkedOut
    requires forall r | r in s'.requests ::
      || (r in s.requests && s'.requests[r] == s.requests[r])
      || (!s'.requests[r].CheckedOut? && RequestOk(s', r))
    ensures CartsOk(s')
  {
    forall c: CartId, d: CartId, user | IsOpen(s', c, user) && IsOpen(s', d, user) ensures c == d {
      assert CartLater(s, s', c) && CartLater(s, s', d);
      assert IsOpen(s, c, user) && IsOpen(s, d, user);
    }
    forall r | r in s'.requests ensures RequestOk(s', r) {
      if r in s.requests && s'.requests[r] == s.requests[r] { RequestStable(s, s', r); }
    }
    forall r, q, c | Owes(s', r, c) && Owes(s', q, c) ensures r == q {
      assert Owes(s, r, c) && Owes(s, q, c);
    }
    OrdersStable(s, s');
  }

  lemma RequestStable(s: CartState, s': CartState, r: nat)
    requires r in s.requests && r in s'.requests && s'.requests[r] == s.requests[r] && RequestOk(s, r)
    requires CartsLater(s, s') && s'.orders == s.orders
    ensures RequestOk(s', r)
  {
    if s.requests[r].HasCart? || s.requests[r].CheckedOut? { assert CartLater(s, s', s.requests[r].cart); }
    if s.requests[r].CheckedOut? {
      forall o ensures !OrderOf(s', o, s.requests[r].cart) { assert !OrderOf(s, o, s.requests[r].cart); }
    }
  }

  lemma OrdersStable(s: CartState, s': CartState)
    requires CartsOk(s) && CartsLater(s, s') && s'.orders == s.orders
    ensures forall o :: 0 <= o < |s'.orders| ==> OrderOk(s', o)
    ensures forall o, p, c :: OrderOf(s', o, c) && OrderOf(s', p, c) ==> o == p
  {
    forall o | 0 <= o < |s'.orders| ensures OrderOk(s', o) {
      assert OrderOk(s, o) && CartLater(s, s', s.orders[o].cart);
    }
    forall o: nat, p: nat, c | OrderOf(s', o, c) && OrderOf(s', p, c) ensures o == p {
      assert OrderOf(s, o, c) && OrderOf(s, p, c);
    }
  }

  lemma InsertKeeps(s: CartState, r: nat)
    requires CartsOk(s) && CanCart(s, InsertCart(r))
    ensures CartsOk(Inserted(s, r))
  {
    var s' := Inserted(s, r);
    StepCartsLater(s, InsertCart(r));
    if OpenCart(s.carts, s.requests[r].user).Some? {
      PlainKeeps(s, s');
    } else {
      forall c: CartId, d: CartId, user | IsOpen(s', c, user) && IsOpen(s', d, user) ensures c == d {
        assert c < |s.carts| ==> IsOpen(s, c, user);
        assert d < |s.carts| ==> IsOpen(s, d, user);
      }
      forall q | q in s'.requests ensures RequestOk(s', q) {
        if q != r { RequestStable(s, s', q); }
      }
      forall p, q, c | Owes(s', p, c) && Owes(s', q, c) ensures p == q {
        assert Owes(s, p, c) && Owes(s, q, c);
      }
      OrdersStable(s, s');
    }
  }

  lemma PerformKeeps(s: CartState, r: nat)
    requires CartsOk(s) && CanCart(s, Perform(r))
    ensures CartsOk(Performed(s, r))
  {
    var s' := Performed(s, r);
    StepCartsLater(s, Perform(r));
    assert RequestOk(s, r);
    if r !in s'.requests {
      PlainKeeps(s, s');
    } else {
      var c := s.requests[r].cart;
      forall a: CartId, b: CartId, user | IsOpen(s', a, user) && IsOpen(s', b, user) ensures a == b {
        assert IsOpen(s, a, user) && IsOpen(s, b, user);
      }
      forall o: nat ensures !OrderOf(s', o, c) {
        if o < |s.orders| { assert OrderOk(s, o); }
      }
      forall q | q in s'.requests ensures RequestOk(s', q) {
        if q != r { RequestStable(s, s', q); }
      }
      forall p, q, d | Owes(s', p, d) && Owes(s', q, d) ensures p == q {
        if p != r { assert Owes(s, p, d) && RequestOk(s, p); }
        if q != r { assert Owes(s, q, d) && RequestOk(s, q); }
      }
      OrdersStable(s, s');
    }
  }

  lemma PlaceOrderKeeps(s: CartState, r: nat)
    requires CartsOk(s) && CanCart(s, PlaceOrder(r))
    ensures CartsOk(DoCart(s, PlaceOrder(r)))
  {
    var s' := DoCart(s, PlaceOrder(r));
    var c := s.requests[r].cart;
    assert RequestOk(s, r) && Owes(s, r, c);
    forall a: CartId, b: CartId, user | IsOpen(s', a, user) && IsOpen(s', b, user) ensures a == b {
      assert IsOpen(s, a, user) && IsOpen(s, b, user);
    }
    forall q | q in s'.requests ensures RequestOk(s', q) {
      assert RequestOk(s, q);
      if s.requests[q].CheckedOut? {
        assert Owes(s, q, s.requests[q].cart) && q != r;
        forall o ensures !OrderOf(s', o, s.requests[q].cart) { assert !OrderOf(s, o, s.requests[q].cart); }
      }
    }
    forall p, q, d | Owes(s', p, d) && Owes(s', q, d) ensures p == q {
      assert Owes(s, p, d) && Owes(s, q, d);
    }
    forall o | 0 <= o < |s'.orders| ensures OrderOk(s', o) {
      if o < |s.orders| { assert OrderOk(s, o); }
    }
    forall o: nat, p: nat, d | OrderOf(s', o, d) && OrderOf(s', p, d) ensures o == p {
      if o < |s.orders| { assert OrderOf(s, o, d); }
      if p < |s.orders| { assert OrderOf(s, p, d); }
      assert !OrderOf(s, o, c) && !OrderOf(s, p, c);
    }
  }

  lemma CartStepKeeps(s: CartState, step: CartStep)
    requires CartsOk(s) && CanCart(s, step)
    ensures CartsOk(DoCart(s, step))
  {
    match step
    case InsertCart(r) => InsertKeeps(s, r);
    case Perform(r) => PerformKeeps(s, r);
    case PlaceOrder(r) => PlaceOrderKeeps(s, r);
    case _ =>
      StepCartsLater(s, step);
      PlainKeeps(s, DoCart(s, step));
  }

  // ---------- items are their edits ----------

  function Replay(items: Items, edits: seq<Edit>): Items {
    if edits == [] then items else Edited(Replay(items, edits[..|edits| - 1]), Last(edits))
  }

  lemma {:induction false} ReplayConcat(items: Items, a: seq<Edit>, b: seq<Edit>)
    ensures Replay(items, a + b) == Replay(Replay(items, a), b)
  {
    if b == [] {
      assert a + b == a;
    } else {
      assert (a + b)[..|a + b| - 1] == a + b[..|b| - 1];
      ReplayConcat(items, a, b[..|b| - 1]);
    }
  }

  predicate ItemsOk(s: CartState, c: CartId)
    requires c < |s.carts|
  {
    s.carts[c].items == Replay(map[], s.carts[c].edits)
  }

  /** A request has read the items as they were after the first `since` edits. */
  predicate ReadOk(s: CartState, r: nat)
    requires r in s.requests
  {
    s.requests[r].HasCart? ==>
      var HasCart(_, c, read, since, _) := s.requests[r];
      c < |s.carts| && since <= |s.carts[c].edits| && read == Replay(map[], s.carts[c].edits[..since])
  }

  ghost predicate HistoryOk(s: CartState) {
    && (forall c :: 0 <= c < |s.carts| ==> ItemsOk(s, c))
    && (forall r {:trigger ReadOk(s, r)} | r in s.requests :: ReadOk(s, r))
  }

  lemma OneEditAtATime(s: CartState, step: CartStep, c: CartId)
    requires CanCart(s, step) && c < |s.carts| && DoCart(s, step).carts[c].edits != s.carts[c].edits
    ensures var cart := DoCart(s, step).carts[c]; cart.edits != [] && cart == WithEdit(s.carts[c], Last(cart.edits))
  {
  }

  lemma EditFollows(cart: Cart, e: Edit)
    requires cart.items == Replay(map[], cart.edits)
    ensures WithEdit(cart, e).items == Replay(map[], WithEdit(cart, e).edits)
  {
    assert (cart.edits + [e])[..|cart.edits|] == cart.edits;
  }

  /** The items follow from the edits, whatever a step does to one cart. */
  lemma ItemsFollow(s: CartState, step: CartStep, c: CartId)
    requires HistoryOk(s) && CanCart(s, step) && c < |DoCart(s, step).carts|
    ensures ItemsOk(DoCart(s, step), c)
  {
    var s' := DoCart(s, step);
    if c < |s.carts| {
      assert ItemsOk(s, c);
      if s'.carts[c].edits != s.carts[c].edits {
        OneEditAtATime(s, step, c);
        EditFollows(s.carts[c], Last(s'.carts[c].edits));
      }
    }
  }

  lemma ReadStays(s: CartState, s': CartState, r: nat)
    requires r in s.requests && r in s'.requests && s'.requests[r] == s.requests[r]
    requires ReadOk(s, r) && CartsLater(s, s')
    ensures ReadOk(s', r)
  {
    if s.requests[r].HasCart? {
      var HasCart(_, c, _, since, _) := s.requests[r];
      assert CartLater(s, s', c);
      assert s'.carts[c].edits[..since] == s.carts[c].edits[..since];
    }
  }

  lemma NewReadOk(s: CartState, r: nat, user: UserId, op: Operation)
    requires HistoryOk(s)
    ensures ReadOk(Found(s, r, user, op), r)
  {
    match OpenCart(s.carts, user)
    case None =>
    case Some(c) =>
      assert ItemsOk(s, c);
      assert s.carts[c].edits[..|s.carts[c].edits|] == s.carts[c].edits;
  }

  /** A request that a step has moved. */
  lemma MovedReadOk(s: CartState, step: CartStep, r: nat)
    requires HistoryOk(s) && CanCart(s, step) && r in DoCart(s, step).requests
    requires r in s.requests ==> DoCart(s, step).requests[r] != s.requests[r]
    ensures ReadOk(DoCart(s, step), r)
  {
    match step
    case Find(_, user, op) => NewReadOk(s, r, user, op);
    case FindAgain(_) => NewReadOk(s, r, s.requests[r].user, s.requests[r].op);
    case _ =>
  }

  lemma StepKeepsHistory(s: CartState, step: CartStep)
    requires HistoryOk(s) && CanCart(s, step)
    ensures HistoryOk(DoCart(s, step))
  {
    var s' := DoCart(s, step);
    StepCartsLater(s, step);
    forall c | 0 <= c < |s'.carts| ensures ItemsOk(s', c) { ItemsFollow(s, step, c); }
    forall r | r in s'.requests ensures ReadOk(s', r) {
      if r in s.requests && s'.requests[r] == s.requests[r] {
        assert ReadOk(s, r);
        ReadStays(s, s', r);
      } else {
        MovedReadOk(s, step, r);
      }
    }
  }

  // ---------- every claimed cart is accounted for ----------

  ghost predicate HasOrder(s: CartState, c: CartId) {
    exists o :: OrderOf(s, o, c)
  }

  ghost predicate IsOwed(s: CartState, c: CartId) {
    exists r :: Owes(s, r, c)
  }

  ghost predicate AccountOk(s: CartState, c: CartId)
    requires c < |s.carts|
  {
    && (s.carts[c].checkedOut && !s.carts[c].abandoned ==> HasOrder(s, c) || IsOwed(s, c))
    && (s.carts[c].abandoned ==> s.carts[c].checkedOut && !HasOrder(s, c) && !IsOwed(s, c))
  }

  ghost predicate AccountsOk(s: CartState) {
    forall c :: 0 <= c < |s.carts| ==> AccountOk(s, c)
  }

  /** Only a checkout that owes cart `c` its order touches the account of `c`, or the one that claims it. */
  lemma AccountStays(s: CartState, step: CartStep, c: CartId)
    requires CanCart(s, step) && c < |s.carts| && AccountOk(s, c) && !Owes(s, step.r, c)
    requires !Owes(DoCart(s, step), step.r, c)
    ensures AccountOk(DoCart(s, step), c)
  {
    var s' := DoCart(s, step);
    forall r ensures Owes(s', r, c) == Owes(s, r, c) {}
    if o :| OrderOf(s, o, c) { assert OrderOf(s', o, c); }
    forall o | OrderOf(s', o, c) ensures OrderOf(s, o, c) {}
  }

  lemma ClaimAccounts(s: CartState, r: nat, c: CartId)
    requires CartsOk(s) && CanCart(s, Perform(r)) && c < |s.carts| && AccountOk(s, c) && !Owes(s, r, c)
    requires Owes(Performed(s, r), r, c)
    ensures AccountOk(Performed(s, r), c)
  {
  }

  lemma OwedAccounts(s: CartState, step: CartStep, c: CartId)
    requires CartsOk(s) && CanCart(s, step) && c < |s.carts| && AccountOk(s, c) && Owes(s, step.r, c)
    ensures AccountOk(DoCart(s, step), c)
  {
    var s' := DoCart(s, step);
    assert RequestOk(s, step.r);
    if step.PlaceOrder? {
      assert OrderOf(s', |s.orders|, c);
    } else {
      forall o ensures !OrderOf(s', o, c) { assert !OrderOf(s, o, c); }
      forall q ensures !Owes(s', q, c) { assert Owes(s, q, c) ==> q == step.r; }
    }
  }

  lemma StepKeepsAccounts(s: CartState, step: CartStep)
    requires CartsOk(s) && AccountsOk(s) && CanCart(s, step)
    ensures AccountsOk(DoCart(s, step))
  {
    var s' := DoCart(s, step);
    forall c | 0 <= c < |s'.carts| ensures AccountOk(s', c) {
      if c < |s.carts| {
        assert AccountOk(s, c);
        if Owes(s, step.r, c) {
          OwedAccounts(s, step, c);
        } else if Owes(s', step.r, c) {
          ClaimAccounts(s, step.r, c);
        } else {
          AccountStays(s, step, c);
        }
      }
    }
  }

  lemma {:induction false} CartRunOk(run: seq<CartState>, i: nat)
    requires IsCartRun(run) && i < |run|
    ensures CartsOk(run[i]) && HistoryOk(run[i]) && AccountsOk(run[i])
  {
    if i > 0 {
      CartRunOk(run, i - 1);
      assert Follows(run, i - 1);
      var step :| CanCart(run[i - 1], step) && run[i] == DoCart(run[i - 1], step);
      CartStepKeeps(run[i - 1], step);
      StepKeepsHistory(run[i - 1], step);
      StepKeepsAccounts(run[i - 1], step);
    }
  }

  // ---------- the promises ----------

  lemma AtMostOneOpenCart(run: seq<CartState>, i: nat, c: CartId, d: CartId, user: UserId)
    requires IsCartRun(run) && i < |run| && IsOpen(run[i], c, user) && IsOpen(run[i], d, user)
    ensures c == d
  {
    CartRunOk(run, i);
  }

  /** A checked-out cart never reopens, and who won it and with what never changes. */
  lemma CheckedOutForGood(run: seq<CartState>, i: nat, j: nat, c: CartId)
    requires IsCartRun(run) && i <= j < |run| && c < |run[i].carts| && run[i].carts[c].checkedOut
    ensures c < |run[j].carts| && run[j].carts[c].checkedOut && run[j].carts[c].won == run[i].carts[c].won
  {
    RunCartLater(run, i, j, c);
  }

  lemma OneOrderPerCart(run: seq<CartState>, i: nat, o: nat, p: nat)
    requires IsCartRun(run) && i < |run| && o < |run[i].orders| && p < |run[i].orders|
    requires run[i].orders[o].cart == run[i].orders[p].cart
    ensures o == p
  {
    CartRunOk(run, i);
    assert OrderOf(run[i], o, run[i].orders[o].cart) && OrderOf(run[i], p, run[i].orders[o].cart);
  }

  /** An order carries exactly what the checkout that won its cart had read, and never nothing. */
  lemma OrderIsTheWinnersSnapshot(run: seq<CartState>, i: nat, o: nat)
    requires IsCartRun(run) && i < |run| && o < |run[i].orders|
    ensures var order := run[i].orders[o];
      && order.cart < |run[i].carts| && run[i].carts[order.cart].checkedOut
      && run[i].carts[order.cart].user == order.user && run[i].carts[order.cart].won == Some(order.lines)
      && order.lines != map[]
  {
    CartRunOk(run, i);
    assert OrderOk(run[i], o);
  }

  // ---------- when the order is the cart at checkout time ----------

  /** Edit `i` is the last one of its product. */
  predicate IsLastOf(edits: seq<Edit>, i: nat) {
    i < |edits| && forall j :: i < j < |edits| ==> edits[j].product != edits[i].product
  }

  /** The product is in `items` as the edit leaves it. */
  predicate Leaves(items: Items, e: Edit) {
    match e
    case Put(p, q) => p in items && items[p] == q
    case Drop(p) => p !in items
  }

  /** Each product that was edited ended up as `items` has it. */
  predicate Stands(items: Items, edits: seq<Edit>) {
    forall i | 0 <= i < |edits| :: IsLastOf(edits, i) ==> Leaves(items, edits[i])
  }

  predicate SameAt(a: Items, b: Items, p: ProductId) {
    (p in a <==> p in b) && (p in a && p in b ==> a[p] == b[p])
  }

  lemma {:induction false} ReplayAt(items: Items, edits: seq<Edit>, i: nat)
    requires IsLastOf(edits, i)
    ensures Leaves(Replay(items, edits), edits[i])
  {
    if i < |edits| - 1 {
      ReplayAt(items, edits[..|edits| - 1], i);
    }
  }

  lemma {:induction false} ReplayElsewhere(items: Items, edits: seq<Edit>, p: ProductId)
    requires forall i :: 0 <= i < |edits| ==> edits[i].product != p
    ensures SameAt(Replay(items, edits), items, p)
  {
    if edits != [] {
      ReplayElsewhere(items, edits[..|edits| - 1], p);
    }
  }

  lemma {:induction false} LastEditExists(edits: seq<Edit>, p: ProductId)
    requires exists i :: 0 <= i < |edits| && edits[i].product == p
    ensures exists i: nat :: IsLastOf(edits, i) && edits[i].product == p
  {
    var n := |edits| - 1;
    if edits[n].product == p {
      assert IsLastOf(edits, n);
    } else {
      LastEditExists(edits[..n], p);
      var i: nat :| IsLastOf(edits[..n], i) && edits[..n][i].product == p;
      assert IsLastOf(edits, i);
    }
  }

  lemma ReplayChangesNothingIff(items: Items, edits: seq<Edit>)
    ensures Replay(items, edits) == items <==> Stands(items, edits)
  {
    var replayed := Replay(items, edits);
    forall i: nat | IsLastOf(edits, i) ensures Leaves(replayed, edits[i]) { ReplayAt(items, edits, i); }
    if Stands(items, edits) {
      forall p ensures SameAt(replayed, items, p) {
        if exists i :: 0 <= i < |edits| && edits[i].product == p {
          LastEditExists(edits, p);
        } else {
          ReplayElsewhere(items, edits, p);
        }
      }
      assert forall p :: SameAt(replayed, items, p) ==> (p in replayed <==> p in items);
      assert replayed == items;
    }
  }

  /** Checkout request `r` wins the claim of cart `c`. */
  ghost predicate Claims(s: CartState, s': CartState, r: nat, c: CartId) {
    && CanCart(s, Perform(r)) && s' == DoCart(s, Perform(r))
    && s.requests[r].op.Checkout? && s.requests[r].cart == c
    && s.requests[r].read != map[] && !s.carts[c].checkedOut
  }

  function EditsSinceRead(s: CartState, r: nat): seq<Edit>
    requires r in s.requests && s.requests[r].HasCart? && s.requests[r].cart < |s.carts|
  {
    var edits := s.carts[s.requests[r].cart].edits;
    if s.requests[r].since <= |edits| then edits[s.requests[r].since..] else []
  }

  /** A claim takes the cart as it is then exactly when each product edited since the checkout read
      the cart has ended up as it was read; the cart is what was read with those edits on top. */
  lemma ClaimTakesCartIff(s: CartState, s': CartState, r: nat, c: CartId)
    requires HistoryOk(s) && Claims(s, s', r, c)
    ensures s.carts[c].items == Replay(s.requests[r].read, EditsSinceRead(s, r))
    ensures s'.carts[c].won == Some(s.carts[c].items) <==> Stands(s.requests[r].read, EditsSinceRead(s, r))
  {
    assert ReadOk(s, r) && ItemsOk(s, c);
    var read, since, edits := s.requests[r].read, s.requests[r].since, s.carts[c].edits;
    assert edits == edits[..since] + edits[since..];
    ReplayConcat(map[], edits[..since], edits[since..]);
    ReplayChangesNothingIff(read, edits[since..]);
  }

  /** A cart becomes checked out by a winning claim and in no other way. */
  lemma OnlyClaimsCheckOut(s: CartState, step: CartStep, c: CartId)
    requires CanCart(s, step) && c < |DoCart(s, step).carts| && DoCart(s, step).carts[c].checkedOut
    requires c < |s.carts| ==> !s.carts[c].checkedOut
    ensures Claims(s, DoCart(s, step), step.r, c) && DoCart(s, step).carts[c].won == Some(s.requests[step.r].read)
  {
  }

  /** Step `k` of the run is the claim of cart `c`, with what its winner had read. */
  ghost predicate ClaimedAt(run: seq<CartState>, k: nat, c: CartId)
    requires k + 1 < |run|
  {
    exists r :: Claims(run[k], run[k + 1], r, c) && c < |run[k + 1].carts| &&
                run[k + 1].carts[c].won == Some(run[k].requests[r].read)
  }

  /** If cart `c` is checked out after step `k` and was not before, then step `k` is its claim. */
  ghost predicate CheckedOutByClaim(run: seq<CartState>, k: nat, c: CartId)
    requires k + 1 < |run|
  {
    c < |run[k + 1].carts| && run[k + 1].carts[c].checkedOut && (c < |run[k].carts| ==> !run[k].carts[c].checkedOut) ==>
      ClaimedAt(run, k, c)
  }

  lemma RunCheckOut(run: seq<CartState>, k: nat, c: CartId)
    requires IsCartRun(run) && k + 1 < |run|
    ensures CheckedOutByClaim(run, k, c)
  {
    var s, s' := run[k], run[k + 1];
    assert Follows(run, k);
    var step :| CanCart(s, step) && s' == DoCart(s, step);
    if c < |s'.carts| && s'.carts[c].checkedOut && (c < |s.carts| ==> !s.carts[c].checkedOut) {
      OnlyClaimsCheckOut(s, step, c);
      assert Claims(s, s', step.r, c);
    }
  }

  lemma {:induction false} ClaimFound(run: seq<CartState>, i: nat, c: CartId)
    requires run != [] && run[0].carts == [] && forall k: nat :: k + 1 < |run| ==> CheckedOutByClaim(run, k, c)
    requires i < |run| && c < |run[i].carts| && run[i].carts[c].checkedOut
    ensures exists k: nat :: k < i && ClaimedAt(run, k, c)
  {
    if c < |run[i - 1].carts| && run[i - 1].carts[c].checkedOut {
      ClaimFound(run, i - 1, c);
    } else {
      assert CheckedOutByClaim(run, i - 1, c);
    }
  }

  /** Every checked-out cart was claimed at some step of the run, and no step but that one claims it. */
  lemma ClaimedOnce(run: seq<CartState>, i: nat, c: CartId)
    requires IsCartRun(run) && i < |run| && c < |run[i].carts| && run[i].carts[c].checkedOut
    ensures exists k: nat :: k < i && ClaimedAt(run, k, c)
    ensures forall k: nat, n: nat ::
      k < i && n < i && ClaimedAt(run, k, c) && ClaimedAt(run, n, c) ==> k == n
  {
    forall k: nat | k + 1 < |run| ensures CheckedOutByClaim(run, k, c) { RunCheckOut(run, k, c); }
    ClaimFound(run, i, c);
    forall k: nat, n: nat | k < n < i && ClaimedAt(run, k, c) ensures !ClaimedAt(run, n, c) {
      NotClaimedAgain(run, k, n, c);
    }
  }

  lemma NotClaimedAgain(run: seq<CartState>, k: nat, n: nat, c: CartId)
    requires IsCartRun(run) && k < n && n + 1 < |run| && ClaimedAt(run, k, c)
    ensures !ClaimedAt(run, n, c)
  {
    var r :| Claims(run[k], run[k + 1], r, c);
    RunCartLater(run, k + 1, n, c);
  }

  /** Over whole runs: whichever step and request claimed an order's cart, the order has the lines that request had
      read, and they are the cart at the claim if and only if each product edited in between had ended up as it
      was read. */
  lemma OrderIsTheCartIff(run: seq<CartState>, i: nat, o: nat, k: nat, r: nat)
    requires IsCartRun(run) && k < i < |run| && o < |run[i].orders|
    requires Claims(run[k], run[k + 1], r, run[i].orders[o].cart)
    ensures var order := run[i].orders[o];
      && order.lines == run[k].requests[r].read
      && (order.lines == run[k].carts[order.cart].items <==> Stands(order.lines, EditsSinceRead(run[k], r)))
  {
    var order := run[i].orders[o];
    OrderIsTheWinnersSnapshot(run, i, o);
    CheckedOutForGood(run, k + 1, i, order.cart);
    CartRunOk(run, k);
    ClaimTakesCartIff(run[k], run[k + 1], r, order.cart);
  }

  // ---------- what becomes of a claimed cart ----------

  /** A checked-out cart has exactly one of: an order, a request that still owes it one, or a winner that
      died in between. A cart that is not checked out has none of them. */
  lemma ClaimedCartIsAccountedFor(run: seq<CartState>, i: nat, c: CartId)
    requires IsCartRun(run) && i < |run| && c < |run[i].carts|
    ensures var s := run[i];
      if s.carts[c].checkedOut then
        && (HasOrder(s, c) || IsOwed(s, c) || s.carts[c].abandoned)
        && !(HasOrder(s, c) && IsOwed(s, c)) && !(s.carts[c].abandoned && (HasOrder(s, c) || IsOwed(s, c)))
      else !HasOrder(s, c) && !IsOwed(s, c) && !s.carts[c].abandoned
  {
    var s := run[i];
    CartRunOk(run, i);
    assert AccountOk(s, c);
    if r :| Owes(s, r, c) { assert RequestOk(s, r); }
    if o :| OrderOf(s, o, c) { assert OrderOk(s, o); }
  }

  /** A cart whose winner died never gets an order, and never opens again. */
  lemma AbandonedForGood(run: seq<CartState>, i: nat, j: nat, c: CartId)
    requires IsCartRun(run) && i <= j < |run| && c < |run[i].carts| && run[i].carts[c].abandoned
    ensures c < |run[j].carts| && run[j].carts[c].checkedOut && !HasOrder(run[j], c)
  {
    RunCartLater(run, i, j, c);
    CartRunOk(run, j);
    assert AccountOk(run[j], c);
  }

  lemma RunStepLater(run: seq<CartState>, k: nat)
    requires IsCartRun(run) && k + 1 < |run|
    ensures CartsLater(run[k], run[k + 1])
  {
    assert Follows(run, k);
    var step :| CanCart(run[k], step) && run[k + 1] == DoCart(run[k], step);
    StepCartsLater(run[k], step);
  }

  ghost predicate LaterAt(run: seq<CartState>, k: nat)
    requires k + 1 < |run|
  {
    CartsLater(run[k], run[k + 1])
  }

  lemma {:induction false} ChainLater(run: seq<CartState>, i: nat, j: nat, c: CartId)
    requires forall k: nat :: k + 1 < |run| ==> LaterAt(run, k)
    requires i <= j < |run| && c < |run[i].carts|
    ensures c < |run[j].carts| && CartLater(run[i], run[j], c)
  {
    if i < j {
      ChainLater(run, i, j - 1, c);
      assert LaterAt(run, j - 1) && CartLater(run[j - 1], run[j], c);
    }
  }

  lemma RunCartLater(run: seq<CartState>, i: nat, j: nat, c: CartId)
    requires IsCartRun(run) && i <= j < |run| && c < |run[i].carts|
    ensures c < |run[j].carts| && CartLater(run[i], run[j], c)
  {
    forall k: nat | k + 1 < |run| ensures LaterAt(run, k) { RunStepLater(run, k); }
    ChainLater(run, i, j, c);
  }

  ghost predicate CartReachable(s: CartState) {
    exists run :: IsCartRun(run) && Last(run) == s
  }

  lemma ReachableStep(s: CartState, step: CartStep)
    requires CartReachable(s) && CanCart(s, step)
    ensures CartReachable(DoCart(s, step))
  {
    var run :| IsCartRun(run) && Last(run) == s;
    var run' := run + [DoCart(s, step)];
    forall i: nat | i + 1 < |run'| ensures Follows(run', i) {
      if i == |run| - 1 {
        assert CanCart(run'[i], step) && run'[i + 1] == DoCart(run'[i], step);
      } else {
        assert Follows(run, i);
      }
    }
    assert IsCartRun(run') && Last(run') == DoCart(s, step);
  }

  /** User 7's only cart, made by `edits`, with `requests` in flight. */
  function OneCart(edits: seq<Edit>, requests: map<nat, CartRequest>): CartState {
    CartState([Cart(7, false, Replay(map[], edits), edits, None, false)], requests, [], {1, 2})
  }

  const ONE_ITEM: seq<Edit> := [Put(1, 1)]
  const TWO_ITEMS: seq<Edit> := [Put(1, 1), Put(2, 5)]

  lemma ItemsOfTheWitness()
    ensures Replay(map[], ONE_ITEM) == map[1 := 1] && Replay(map[], TWO_ITEMS) == map[1 := 1, 2 := 5]
  {
    assert ONE_ITEM[..0] == [] && TWO_ITEMS[..1] == ONE_ITEM;
    assert map[][1 := 1] == map[1 := 1 as nat] && map[1 := 1][2 := 5] == map[1 := 1, 2 := 5 as nat];
  }

  lemma EmptyCart()
    ensures CartReachable(OneCart([], map[0 := HasCart(7, 0, map[], 0, SetItem(1, 1))]))
  {
    var s0 := CartState([], map[], [], {1, 2});
    assert IsCartRun([s0]) && Last([s0]) == s0;
    var s1 := s0.(requests := map[0 := NoCart(7, SetItem(1, 1))]);
    assert DoCart(s0, Find(0, 7, SetItem(1, 1))) == s1;
    ReachableStep(s0, Find(0, 7, SetItem(1, 1)));
    assert DoCart(s1, InsertCart(0)) == OneCart([], map[0 := HasCart(7, 0, map[], 0, SetItem(1, 1))]);
    ReachableStep(s1, InsertCart(0));
  }

  lemma CartWithOneItem()
    ensures CartReachable(OneCart(ONE_ITEM, map[]))
  {
    EmptyCart();
    ItemsOfTheWitness();
    var s := OneCart([], map[0 := HasCart(7, 0, map[], 0, SetItem(1, 1))]);
    assert Without(s.requests, 0) == map[] && [] + [Put(1, 1)] == ONE_ITEM;
    assert DoCart(s, Perform(0)) == OneCart(ONE_ITEM, map[]);
    ReachableStep(s, Perform(0));
  }

  /** A checkout has read one item; a second item is about to be set. */
  lemma CheckoutHasRead()
    ensures CartReachable(OneCart(ONE_ITEM, map[1 := HasCart(7, 0, map[1 := 1], 1, Checkout),
                                                2 := HasCart(7, 0, map[1 := 1], 1, SetItem(2, 5))]))
  {
    CartWithOneItem();
    ItemsOfTheWitness();
    var s := OneCart(ONE_ITEM, map[]);
    var s' := OneCart(ONE_ITEM, map[1 := HasCart(7, 0, map[1 := 1], 1, Checkout)]);
    assert DoCart(s, Find(1, 7, Checkout)) == s';
    ReachableStep(s, Find(1, 7, Checkout));
    ReachableStep(s', Find(2, 7, SetItem(2, 5)));
    assert DoCart(s', Find(2, 7, SetItem(2, 5))).requests ==
           map[1 := HasCart(7, 0, map[1 := 1], 1, Checkout), 2 := HasCart(7, 0, map[1 := 1], 1, SetItem(2, 5))];
  }

  /** The checkout has read one item; the cart holds two. */
  function StaleCheckout(): CartState {
    OneCart(TWO_ITEMS, map[1 := HasCart(7, 0, map[1 := 1], 1, Checkout)])
  }

  lemma ItemSetAfterTheRead()
    ensures CartReachable(StaleCheckout())
  {
    CheckoutHasRead();
    ItemsOfTheWitness();
    var s := OneCart(ONE_ITEM, map[1 := HasCart(7, 0, map[1 := 1], 1, Checkout),
                                   2 := HasCart(7, 0, map[1 := 1], 1, SetItem(2, 5))]);
    assert Without(s.requests, 2) == StaleCheckout().requests;
    assert ONE_ITEM + [Put(2, 5)] == TWO_ITEMS;
    assert DoCart(s, Perform(2)) == StaleCheckout();
    ReachableStep(s, Perform(2));
  }

  lemma StaleClaim()
    ensures var s := StaleCheckout();
      && Claims(s, DoCart(s, Perform(1)), 1, 0)
      && DoCart(s, Perform(1)).requests == map[1 := CheckedOut(7, 0, map[1 := 1])]
  {
    assert 1 in map[1 := 1 as nat];
  }

  /** The snapshot need not be what the cart holds when it is claimed: an item set between the read
      and the claim is in the cart at the claim but not in the order. */
  lemma SnapshotCanBeStale()
    ensures exists s, s', r ::
      && CartReachable(s) && Claims(s, s', r, 0) && s.requests[r].read != s.carts[0].items
      && CanCart(s', PlaceOrder(r)) && DoCart(s', PlaceOrder(r)).orders == [CartOrder(0, 7, s.requests[r].read)]
  {
    ItemSetAfterTheRead();
    StaleClaim();
    ItemsOfTheWitness();
    var s := StaleCheckout();
    assert 2 in s.carts[0].items && 2 !in s.requests[1].read;
    assert DoCart(DoCart(s, Perform(1)), PlaceOrder(1)).orders == [CartOrder(0, 7, s.requests[1].read)];
  }

  /** A claim and its order are not one transaction: a winner that dies in between leaves a checked-out cart
      that no request remembers and that has no order. */
  lemma ClaimedCartCanLoseItsOrder()
    ensures exists s ::
      CartReachable(s) && |s.carts| == 1 && s.carts[0].checkedOut && s.requests == map[] && s.orders == []
  {
    ItemSetAfterTheRead();
    StaleClaim();
    var s := StaleCheckout();
    ReachableStep(s, Perform(1));
    var s' := DoCart(s, Perform(1));
    ReachableStep(s', Abandon(1));
    assert DoCart(s', Abandon(1)).requests == map[];
  }

  // ---------- the service, with nothing interleaved ----------

  class CartService {
    var carts: seq<Cart>
    var orders: seq<CartOrder>

    /** getOpenCart: the user's open cart, created lazily. */
    method GetOpenCart(user: UserId) returns (c: CartId)
      modifies this`carts
      ensures old(carts) <= carts && c < |carts| && carts[c].user == user && !carts[c].checkedOut
      ensures OpenCart(old(carts), user).Some? ==> carts == old(carts) && c == OpenCart(old(carts), user).value
      ensures OpenCart(old(carts), user).None? ==> carts == old(carts) + [NewCart(user)] && c == |old(carts)|
    {
      var found := OpenCart(carts, user);
      if found.Some? { return found.value; }
      c := |carts|;
      carts := carts + [NewCart(user)];
    }

    /** setItem sets the quantity, it does not add to it; None is NotFoundException, raised when the cart
        has already been created. */
    method Set(user: UserId, product: ProductId, quantity: nat, catalogue: set<ProductId>) returns (c: Option<CartId>)
      modifies this`carts
      ensures c.Some? <==> product in catalogue
      ensures c.Some? ==> c.value < |carts| && carts[c.value].user == user && !carts[c.value].checkedOut
      ensures c.Some? ==> product in carts[c.value].items && carts[c.value].items[product] == quantity
      ensures forall i :: 0 <= i < |old(carts)| && c != Some(i) ==> i < |carts| && carts[i] == old(carts)[i]
      ensures c.Some? && c.value < |old(carts)| ==>
        carts[c.value].items == old(carts)[c.value].items[product := quantity]
      ensures c.Some? && c.value >= |old(carts)| ==> carts[c.value].items == map[product := quantity]
      ensures OpenCart(old(carts), user).Some? ==>
        |carts| == |old(carts)| && (c.Some? ==> c == OpenCart(old(carts), user))
      ensures OpenCart(old(carts), user).None? ==> |carts| == |old(carts)| + 1 && (c.Some? ==> c.value == |old(carts)|)
    {
      var found := GetOpenCart(user);
      if product !in catalogue { return None; }
      carts := carts[found := WithEdit(carts[found], Put(product, quantity))];
      return Some(found);
    }

    /** removeItem: the product leaves the open cart, every other line stays. */
    method Remove(user: UserId, product: ProductId) returns (c: CartId)
      modifies this`carts
      ensures c < |carts| && carts[c].user == user && !carts[c].checkedOut && product !in carts[c].items
      ensures forall i :: 0 <= i < |old(carts)| && i != c ==> i < |carts| && carts[i] == old(carts)[i]
      ensures OpenCart(old(carts), user).Some? ==>
        && |carts| == |old(carts)| && c == OpenCart(old(carts), user).value
        && forall p :: p != product ==>
             (p in carts[c].items <==> p in old(carts)[c].items) &&
             (p in carts[c].items ==> carts[c].items[p] == old(carts)[c].items[p])
      ensures OpenCart(old(carts), user).None? ==>
        c == |old(carts)| && |carts| == |old(carts)| + 1 && carts[c].items == map[]
    {
      c := GetOpenCart(user);
      carts := carts[c := WithEdit(carts[c], Drop(product))];
    }

    /** checkout: the open cart, if it has items, becomes exactly one order with those items. */
    method DoCheckout(user: UserId) returns (order: Option<nat>)
      modifies this
      ensures order.Some? <==>
        var c := OpenCart(old(carts), user); c.Some? && old(carts)[c.value].items != map[]
      ensures order.Some? ==>
        var c := OpenCart(old(carts), user).value;
        && order.value == |old(orders)|
        && orders == old(orders) + [CartOrder(c, user, old(carts)[c].items)]
        && carts == old(carts)[c := old(carts)[c].(checkedOut := true, won := Some(old(carts)[c].items))]
      ensures order.None? ==> orders == old(orders) && old(carts) <= carts
    {
      var c := GetOpenCart(user);
      var items := carts[c].items;
      if items == map[] { return None; }
      carts := carts[c := carts[c].(checkedOut := true, won := Some(items))];
      orders := orders + [CartOrder(c, user, items)];
      return Some(|orders| - 1);
    }
  }
}
