/** The vendor's orders screen: the status options, the status filter, the
    order title, and the status-change dialog. */
module OrdersScreen {
  import opened Common
  import opened Text
  import opened Orders
  import opened Ui
  import opened AlertDialog
  import opened Dashboard
  import Cart

  /** `ORDER_STATUS_OPTIONS`. */
  function StatusOptions(): seq<OrderStatus> {
    [Pending, Processing, Shipped, Delivered, Cancelled, Failed]
  }

  /** The options list every status once, in the stated order. */
  lemma StatusOptionsComplete(st: OrderStatus)
    ensures st in StatusOptions()
    ensures |StatusOptions()| == 6
    ensures forall i, j :: 0 <= i < j < |StatusOptions()| ==> StatusOptions()[i] != StatusOptions()[j]
    ensures StatusName(StatusOptions()[0]) == "pending" && StatusName(StatusOptions()[5]) == "failed"
  {
  }

  /** The screen's filter: 'all' or one status. */
  datatype StatusFilter = All | Only(status: OrderStatus)

  predicate Passes(o: Order, f: StatusFilter) {
    f.All? || o.status == f.status
  }

  /** `filteredOrders`. */
  function FilterOrders(orders: seq<Order>, f: StatusFilter): (r: seq<Order>)
    ensures |r| <= |orders|
    ensures f == All ==> r == orders
    ensures forall o :: o in r <==> o in orders && Passes(o, f)
  {
    if f == All then orders
    else if |orders| == 0 then []
    else
      var rest := FilterOrders(orders[1..], f);
      assert forall o :: o in orders <==> o == orders[0] || o in orders[1..];
      if orders[0].status == f.status then [orders[0]] + rest else rest
  }

  /** Filtering keeps the original order: it distributes over a split of the
      list, so it is the per-order choice applied left to right. */
  lemma {:induction false} FilterOrdersAppend(a: seq<Order>, b: seq<Order>, f: StatusFilter)
    ensures FilterOrders(a + b, f) == FilterOrders(a, f) + FilterOrders(b, f)
  {
    if f != All {
      if |a| == 0 {
        assert a + b == b;
      } else {
        assert (a + b)[1..] == a[1..] + b;
        FilterOrdersAppend(a[1..], b, f);
      }
    }
  }

  /** The dashboard's pending card counts exactly what the pending filter of
      this screen shows. */
  lemma {:induction false} PendingCountIsFilterLength(orders: seq<Order>)
    ensures PendingCount(orders) == |FilterOrders(orders, Only(Pending))|
  {
    if |orders| > 0 {
      PendingCountIsFilterLength(orders[1..]);
    }
  }

  /** `allStatuses`: 'all' followed by the six options. */
  function AllStatuses(): (r: seq<StatusFilter>)
    ensures |r| == 7 && r[0] == All
    ensures forall i :: 1 <= i < 7 ==> r[i] == Only(StatusOptions()[i - 1])
  {
    [All] + seq(6, i requires 0 <= i < 6 => Only(StatusOptions()[i]))
  }

  /** A status button's label: the name with its first letter upper-cased. */
  function StatusLabel(st: OrderStatus): (r: string)
    ensures |r| == |StatusName(st)| && r[1..] == StatusName(st)[1..]
    ensures r[0] == UpperChar(StatusName(st)[0])
  {
    Capitalize(StatusName(st))
  }

  /** The labels read as the statuses capitalised. */
  lemma StatusLabelText()
    ensures StatusLabel(Pending) == "Pending" && StatusLabel(Cancelled) == "Cancelled"
  {
    assert StatusLabel(Pending) == [UpperChar('p')] + "ending";
    assert StatusLabel(Cancelled) == [UpperChar('c')] + "ancelled";
  }

  /** Different statuses get different labels. */
  lemma StatusLabelInjective(a: OrderStatus, b: OrderStatus)
    requires StatusLabel(a) == StatusLabel(b)
    ensures a == b
  {
    CapitalizeInjective(StatusName(a), StatusName(b));
    StatusNameInjective(a, b);
  }

  /** An order's short name: its order number when non-empty, else the first
      `n` characters of its id (all of it when shorter). */
  function OrderTitle(o: Order, n: nat): (r: string)
    ensures Truthy(o.orderNumber) ==> r == o.orderNumber.value
    ensures !Truthy(o.orderNumber) ==> |r| <= n && r <= o.id
    ensures !Truthy(o.orderNumber) && n <= |o.id| ==> |r| == n
  {
    if Truthy(o.orderNumber) then o.orderNumber.value
    else if n <= |o.id| then o.id[..n] else o.id
  }

  /** The card title uses up to eight characters of the id; the dialog title
      up to six. */
  function CardTitle(o: Order): string {
    "Order #" + OrderTitle(o, 8)
  }

  /** An order placed through checkout is always titled by its order number. */
  lemma CheckedOutOrdersShowNumber(id: string, uid: string, cart: Cart.Cart, count: int, now: int)
    ensures var o := SnapshotOrder(id, uid, cart, OrderNumber(count), now);
            OrderTitle(o, 8) == OrderNumber(count) && CardTitle(o) == "Order #" + OrderNumber(count)
  {
  }

  /** The buttons of the status dialog: one per option, then Cancel. */
  function StatusButtons(): (r: seq<AlertButton>)
    ensures |r| == 7
    ensures forall i :: 0 <= i < 6 ==> r[i] == AlertButton(StatusLabel(StatusOptions()[i]), true, None, None)
    ensures r[6] == AlertButton("Cancel", true, Some(CancelStyle), None)
  {
    seq(6, i requires 0 <= i < 6 => AlertButton(StatusLabel(StatusOptions()[i]), true, None, None))
      + [AlertButton("Cancel", true, Some(CancelStyle), None)]
  }

  /** `handleShowStatusOptions()`: the dialog content for an order. */
  function StatusDialog(o: Order): (c: AlertContent)
    ensures c.alertType == "confirmation" && c.buttons == StatusButtons()
    ensures c.title == "Update Order #" + OrderTitle(o, 6)
  {
    AlertContent("Update Order #" + OrderTitle(o, 6), "Select the new status for this order:", "confirmation", StatusButtons())
  }

  /** Only the last status-dialog button is a cancel button, and none is loading. */
  lemma StatusButtonsShape()
    ensures FirstCancel(StatusButtons()) == Some(6)
    ensures !AnyLoading(StatusButtons())
  {
    var b := StatusButtons();
    assert forall j :: 0 <= j < 6 ==> b[j].style.None?;
    assert forall j :: 0 <= j < 7 ==> b[j].isLoading.None?;
  }

  /** In the status dialog the back gesture presses Cancel, and every button
      closes the dialog after its callback, since none is loading or
      destructive. */
  lemma StatusDialogCloses(o: Order, s: UiState, i: nat)
    requires i < 7
    ensures BackRequest(StatusDialog(o).buttons) == Some(StatusButtons()[6])
    ensures var shown := ShowAlert(s, StatusDialog(o));
            !PressInStore(shown, StatusButtons()[i]).alert.isVisible
  {
    StatusButtonsShape();
    var b := StatusButtons();
    assert b[i].style != Some(DestructiveStyle);
    assert !IsLoading(b[i]);
  }
}
