/** The customer's orders store: the order record, the shared order-number
    counter, and checkout, which snapshots the cart into a new order and then
    empties the stored cart. */
module Orders {
  import opened Common
  import opened Decimal
  import opened Auth
  import opened Cart

  datatype OrderStatus = Pending | Processing | Shipped | Delivered | Cancelled | Failed

  /** The status as the string stored in the order document. */
  function StatusName(st: OrderStatus): string {
    match st
    case Pending => "pending"
    case Processing => "processing"
    case Shipped => "shipped"
    case Delivered => "delivered"
    case Cancelled => "cancelled"
    case Failed => "failed"
  }

  /** Different statuses are stored as different strings. */
  lemma StatusNameInjective(a: OrderStatus, b: OrderStatus)
    requires StatusName(a) == StatusName(b)
    ensures a == b
  {
  }

  /** An order: a copy of the cart's lines and totals at checkout, its
      status, the tick it was created at, and its human-facing number. */
  datatype Order = Order(
    id: string,
    userId: string,
    items: seq<CartItem>,
    totalPrice: int,
    totalQuantity: int,
    status: OrderStatus,
    createdAt: int,
    orderNumber: Option<string>)

  /** The `internal/orderCounter` document. */
  datatype CounterDoc = CounterDoc(count: Option<int>)

  /** The count the next order gets: the stored count plus one, counting a
      missing document or field (or a zero) as zero. */
  function NextCount(counter: Option<CounterDoc>): (n: int)
    ensures counter.None? || counter.value.count.None? ==> n == 1
    ensures counter.Some? && counter.value.count.Some? ==> n == counter.value.count.value + 1
  {
    match counter
    case None => 1
    case Some(c) => c.count.GetOr(0) + 1
  }

  /** "ORD-" and the count in decimal, left-padded with '0' to six digits. */
  function OrderNumber(count: int): (r: string)
    ensures |r| >= 10 && r[..4] == "ORD-"
    ensures r[4..] == PadStart(NumberText(count), 6, '0')
  {
    "ORD-" + PadStart(NumberText(count), 6, '0')
  }

  /** For a non-negative count the number reads back as that count, and it
      has exactly ten characters while the count has at most six digits. */
  lemma OrderNumberValue(count: int)
    requires 0 <= count
    ensures var r := OrderNumber(count);
            (forall i :: 4 <= i < |r| ==> IsDigit(r[i])) && Value(r[4..]) == count
            && (count < 1000000 ==> |r| == 10)
  {
    var digits := NumberText(count);
    var padded := PadStart(digits, 6, '0');
    ValueWithLeadingZeros(padded[..|padded| - |digits|], digits);
    assert padded == padded[..|padded| - |digits|] + digits;
    if count < 1000000 {
      assert Pow10(6) == 1000000;
      DigitsBelow(count, 6);
    }
  }

  /** Leading zeros do not change a decimal value. */
  lemma {:induction false} ValueWithLeadingZeros(zeros: string, s: string)
    requires forall i :: 0 <= i < |zeros| ==> zeros[i] == '0'
    ensures Value(zeros + s) == Value(s)
  {
    if |s| == 0 {
      assert zeros + s == zeros;
      ValueOfZeros(zeros);
    } else {
      var init := s[..|s| - 1];
      assert (zeros + s)[..|zeros + s| - 1] == zeros + init;
      ValueWithLeadingZeros(zeros, init);
    }
  }

  lemma {:induction false} ValueOfZeros(zeros: string)
    requires forall i :: 0 <= i < |zeros| ==> zeros[i] == '0'
    ensures Value(zeros) == 0
  {
    if |zeros| > 0 {
      ValueOfZeros(zeros[..|zeros| - 1]);
    }
  }

  /** A number below 10^w has at most w digits (w >= 1, as zero has one). */
  lemma {:induction false} DigitsBelow(n: nat, w: nat)
    requires 1 <= w && n < Pow10(w)
    ensures |Digits(n)| <= w
  {
    assert Pow10(1) == 10;
    if n >= 10 {
      DigitsBelow(n / 10, w - 1);
    }
  }

  function Pow10(w: nat): nat {
    if w == 0 then 1 else 10 * Pow10(w - 1)
  }

  /** Distinct counts give distinct order numbers. */
  lemma OrderNumberInjective(a: int, b: int)
    requires OrderNumber(a) == OrderNumber(b)
    ensures a == b
  {
    var pa, pb := PadStart(NumberText(a), 6, '0'), PadStart(NumberText(b), 6, '0');
    assert pa == OrderNumber(a)[4..] == OrderNumber(b)[4..] == pb;
    NumberTextCanonical(a);
    NumberTextCanonical(b);
    PadStartInjective(NumberText(a), NumberText(b), 6);
    NumberTextInjective(a, b);
  }

  /** `generateOrderNumber`, one run of its transaction: `ok` says whether the
      transaction commits. On commit the counter holds the new count and the
      number is formatted from it; otherwise nothing changes. */
  function GenerateOrderNumber(counter: Option<CounterDoc>, ok: bool): (r: (Option<CounterDoc>, Option<string>))
    ensures ok ==> r.0 == Some(CounterDoc(Some(NextCount(counter)))) && r.1 == Some(OrderNumber(NextCount(counter)))
    ensures !ok ==> r.0 == counter && r.1.None?
  {
    if ok then
      var n := NextCount(counter);
      (Some(CounterDoc(Some(n))), Some(OrderNumber(n)))
    else (counter, None)
  }

  /** Two committed runs in a row hand out consecutive counts, so different
      order numbers. */
  lemma ConsecutiveOrderNumbersDiffer(counter: Option<CounterDoc>)
    ensures var first := GenerateOrderNumber(counter, true);
            var second := GenerateOrderNumber(first.0, true);
            NextCount(first.0) == NextCount(counter) + 1 && first.1 != second.1
  {
    var first := GenerateOrderNumber(counter, true);
    var second := GenerateOrderNumber(first.0, true);
    if first.1 == second.1 {
      OrderNumberInjective(NextCount(counter), NextCount(first.0));
    }
  }

  /** Starting from no counter, the n-th committed run (n >= 1) hands out count n. */
  lemma {:induction false} CounterCountsCheckouts(n: nat)
    requires n >= 1
    ensures NextCount(CounterAfter(n - 1)) == n
  {
    if n > 1 {
      CounterCountsCheckouts(n - 1);
    }
  }

  /** The counter document after `n` committed runs from none. */
  function CounterAfter(n: nat): Option<CounterDoc> {
    if n == 0 then None else GenerateOrderNumber(CounterAfter(n - 1), true).0
  }

  datatype OrdersState = OrdersState(orders: seq<Order>, isLoading: bool, error: Option<Error>, currentOrder: Option<Order>)

  const InitialOrdersState := OrdersState([], false, None, None)

  /** The remote documents checkout touches: the counter, the `orders`
      collection by id, and the `carts` collection by user id. */
  datatype Remote = Remote(counter: Option<CounterDoc>, orders: map<string, Order>, carts: map<string, StoredCart>)

  /** Which of checkout's three remote steps would succeed if reached: the
      counter transaction, the order write, the cart update. */
  datatype CheckoutLinks = CheckoutLinks(counterOk: bool, orderOk: bool, cartOk: bool)

  /** The outcome of checkout: the store, the remote documents, and the
      returned order id (`None` for JavaScript's `null`). */
  datatype Checkout = Checkout(state: OrdersState, remote: Remote, result: Option<string>)

  const UserNotAuthenticated := Message("User not authenticated")
  const CartIsEmpty := Message("Cart is empty")

  /** The order checkout writes for `cart`. */
  function SnapshotOrder(id: string, uid: string, cart: Cart, number: string, now: int): (o: Order)
    ensures o.items == cart.items && o.totalPrice == cart.totalPrice && o.totalQuantity == cart.totalQuantity
    ensures o.status == Pending && o.userId == uid && o.id == id && o.orderNumber == Some(number)
  {
    Order(id, uid, cart.items, cart.totalPrice, cart.totalQuantity, Pending, now, Some(number))
  }

  /** `createOrderFromCart`: `newId` is the id the `orders` collection
      generates and `now` the creation tick. The steps run in order (counter,
      order write, cart update); the first failing one ends checkout with no
      id returned, leaving the writes already made in place. An update of a
      missing cart document fails. */
  function CreateOrderFromCart(s: OrdersState, user: Option<User>, cart: Option<Cart>, remote: Remote,
                               newId: string, now: int, links: CheckoutLinks): (r: Checkout)
    ensures !r.state.isLoading && r.state.orders == s.orders
    ensures user.None? ==> r.result.None? && r.state.error == Some(UserNotAuthenticated) && r.remote == remote
    ensures user.Some? && (cart.None? || |cart.value.items| == 0) ==>
              r.result.None? && r.state.error == Some(CartIsEmpty) && r.remote == remote
    ensures r.result.Some? <==>
              user.Some? && cart.Some? && |cart.value.items| > 0
              && links.counterOk && links.orderOk && links.cartOk && user.value.uid in remote.carts
    ensures r.result.Some? ==>
              var uid := user.value.uid;
              var order := SnapshotOrder(newId, uid, cart.value, OrderNumber(NextCount(remote.counter)), now);
              r.result.value == newId
              && r.remote.orders == remote.orders[newId := order]
              && r.remote.carts == remote.carts[uid := remote.carts[uid].(items := Some([]))]
              && r.remote.counter == Some(CounterDoc(Some(NextCount(remote.counter))))
              && r.state.currentOrder == Some(order) && r.state.error.None?
    ensures r.result.None? ==> r.state.error.Some? && r.state.currentOrder == s.currentOrder
  {
    if user.None? then
      Checkout(s.(error := Some(UserNotAuthenticated), isLoading := false), remote, None)
    else if cart.None? || |cart.value.items| == 0 then
      Checkout(s.(error := Some(CartIsEmpty), isLoading := false), remote, None)
    else
      var uid := user.value.uid;
      var failed := s.(error := Some(Storage), isLoading := false);
      var (counter', number) := GenerateOrderNumber(remote.counter, links.counterOk);
      if number.None? then Checkout(failed, remote, None)
      else
        var order := SnapshotOrder(newId, uid, cart.value, number.value, now);
        if !links.orderOk then Checkout(failed, remote.(counter := counter'), None)
        else
          var placed := remote.(counter := counter', orders := remote.orders[newId := order]);
          if !links.cartOk || uid !in remote.carts then Checkout(failed, placed, None)
          else
            var cleared := placed.(carts := remote.carts[uid := remote.carts[uid].(items := Some([]))]);
            Checkout(s.(currentOrder := Some(order), isLoading := false, error := None), cleared, Some(newId))
  }

  /** Checkout is not atomic: when the order is written but clearing the cart
      fails, the order exists while the cart keeps its lines and no id is
      returned. */
  lemma OrderPlacedCartKept(s: OrdersState, user: User, cart: Cart, remote: Remote, newId: string, now: int)
    requires |cart.items| > 0
    ensures var r := CreateOrderFromCart(s, Some(user), Some(cart), remote, newId, now, CheckoutLinks(true, true, false));
            r.result.None? && newId in r.remote.orders && r.remote.orders[newId].items == cart.items
            && r.remote.carts == remote.carts
  {
  }

  /** The snapshot a successful checkout triggers shows the user an empty cart
      with zero totals. */
  lemma CheckoutEmptiesCart(s: OrdersState, user: User, cart: Cart, remote: Remote, newId: string, now: int,
                            cs: CartState, writeOk: bool)
    requires CreateOrderFromCart(s, Some(user), Some(cart), remote, newId, now, CheckoutLinks(true, true, true)).result.Some?
    ensures var r := CreateOrderFromCart(s, Some(user), Some(cart), remote, newId, now, CheckoutLinks(true, true, true));
            var seen := OnCartSnapshot(cs, user.uid, Some(r.remote.carts[user.uid]), writeOk).state.cart.value;
            seen.items == [] && seen.totalPrice == 0 && seen.totalQuantity == 0
  {
  }

  /** An order taken from a consistent cart is itself consistent: recomputing
      its totals from its lines gives the totals it stores. */
  lemma OrderTotalsMatchItems(id: string, uid: string, cart: Cart, number: string, now: int)
    requires Consistent(cart)
    ensures var o := SnapshotOrder(id, uid, cart, number, now);
            o.totalPrice == TotalPrice(o.items) && o.totalQuantity == TotalQuantity(o.items)
  {
  }

  /** `clearOrders`. */
  function ClearOrders(s: OrdersState): (s': OrdersState)
    ensures s'.orders == [] && s'.currentOrder.None? && s'.error.None? && !s'.isLoading
  {
    InitialOrdersState
  }
}
