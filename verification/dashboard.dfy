/** The vendor dashboard's three figures. */
module Dashboard {
  import opened Common
  import opened Orders
  import opened VendorOrders
  import opened VendorItems

  /** `pendingOrders`: the number of orders whose status is pending. */
  function PendingCount(orders: seq<Order>): (n: nat)
    ensures n <= |orders|
    ensures n == 0 <==> forall i :: 0 <= i < |orders| ==> orders[i].status != Pending
    ensures n == |orders| <==> forall i :: 0 <= i < |orders| ==> orders[i].status == Pending
  {
    if |orders| == 0 then 0
    else
      var rest := PendingCount(orders[1..]);
      assert forall i :: 1 <= i < |orders| ==> orders[i] == orders[1..][i - 1];
      (if orders[0].status == Pending then 1 else 0) + rest
  }

  /** `activeItems`: the number of items whose `isActive` is true; a
      missing flag does not count. */
  function ActiveCount(items: seq<VendorItem>): (n: nat)
    ensures n <= |items|
    ensures n == 0 <==> forall i :: 0 <= i < |items| ==> items[i].isActive != Some(true)
    ensures |items| == 1 ==> (n == 1 <==> items[0].isActive == Some(true))
  {
    if |items| == 0 then 0
    else
      var rest := ActiveCount(items[1..]);
      assert forall i :: 1 <= i < |items| ==> items[i] == items[1..][i - 1];
      (if items[0].isActive == Some(true) then 1 else 0) + rest
  }

  /** Active items add up over a split of the list, so with the one-item case
      the count is the number of items whose flag is true. */
  lemma {:induction false} ActiveCountAppend(a: seq<VendorItem>, b: seq<VendorItem>)
    ensures ActiveCount(a + b) == ActiveCount(a) + ActiveCount(b)
  {
    if |a| == 0 {
      assert a + b == b;
    } else {
      assert (a + b)[1..] == a[1..] + b;
      ActiveCountAppend(a[1..], b);
    }
  }

  /** `totalSales`: the sum of `totalPrice` over delivered orders. */
  function TotalSales(orders: seq<Order>): int {
    if |orders| == 0 then 0
    else (if orders[0].status == Delivered then orders[0].totalPrice else 0) + TotalSales(orders[1..])
  }

  /** Sales add up over a split of the list. */
  lemma {:induction false} TotalSalesAppend(a: seq<Order>, b: seq<Order>)
    ensures TotalSales(a + b) == TotalSales(a) + TotalSales(b)
  {
    if |a| == 0 {
      assert a + b == b;
    } else {
      assert (a + b)[1..] == a[1..] + b;
      TotalSalesAppend(a[1..], b);
    }
  }

  /** Without delivered orders there are no sales. */
  lemma {:induction false} NoDeliveredNoSales(orders: seq<Order>)
    requires forall i :: 0 <= i < |orders| ==> orders[i].status != Delivered
    ensures TotalSales(orders) == 0
  {
    if |orders| > 0 {
      NoDeliveredNoSales(orders[1..]);
    }
  }

  /** The price of an order that is not delivered does not affect sales. */
  lemma {:induction false} SalesIgnoreUndelivered(orders: seq<Order>, k: nat, price: int)
    requires k < |orders| && orders[k].status != Delivered
    ensures TotalSales(orders[k := orders[k].(totalPrice := price)]) == TotalSales(orders)
  {
    if k > 0 {
      var changed := orders[k := orders[k].(totalPrice := price)];
      assert changed[1..] == orders[1..][k - 1 := orders[k].(totalPrice := price)];
      SalesIgnoreUndelivered(orders[1..], k - 1, price);
    }
  }

  /** Marking an undelivered order as delivered adds exactly its price to
      the sales, when ids are unique. */
  lemma {:induction false} DeliveringAddsPrice(orders: seq<Order>, k: nat)
    requires k < |orders| && orders[k].status != Delivered
    requires forall i, j :: 0 <= i < j < |orders| ==> orders[i].id != orders[j].id
    ensures TotalSales(SetStatus(orders, orders[k].id, Delivered)) == TotalSales(orders) + orders[k].totalPrice
  {
    var id := orders[k].id;
    var after := SetStatus(orders, id, Delivered);
    assert after[1..] == SetStatus(orders[1..], id, Delivered);
    if k == 0 {
      SetStatusAbsent(orders[1..], id, Delivered);
    } else {
      assert orders[0].id != id;
      DeliveringAddsPrice(orders[1..], k - 1);
    }
  }
}
