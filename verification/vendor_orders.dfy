/** The vendor's view of all orders: the status update, the clear, and the
    reaction to the vendor role being gained or lost. */
module VendorOrders {
  import opened Common
  import opened Auth
  import opened Orders

  datatype VendorOrdersState = VendorOrdersState(vendorOrders: seq<Order>, isLoading: bool, error: Option<Error>)

  const InitialVendorOrders := VendorOrdersState([], false, None)

  /** The local list after a status change: every order with that id gets
      the new status, every other order is kept, positions unchanged. */
  function SetStatus(orders: seq<Order>, id: string, st: OrderStatus): (r: seq<Order>)
    ensures |r| == |orders|
    ensures forall i :: 0 <= i < |r| ==> r[i] == (if orders[i].id == id then orders[i].(status := st) else orders[i])
  {
    if |orders| == 0 then []
    else
      var head := if orders[0].id == id then orders[0].(status := st) else orders[0];
      [head] + SetStatus(orders[1..], id, st)
  }

  /** An id that matches no order leaves the list as it is. */
  lemma SetStatusAbsent(orders: seq<Order>, id: string, st: OrderStatus)
    requires forall i :: 0 <= i < |orders| ==> orders[i].id != id
    ensures SetStatus(orders, id, st) == orders
  {
  }

  /** Of two status changes to the same order the later one wins, so
      repeating a change changes nothing more. */
  lemma SetStatusLastWins(orders: seq<Order>, id: string, a: OrderStatus, b: OrderStatus)
    ensures SetStatus(SetStatus(orders, id, a), id, b) == SetStatus(orders, id, b)
    ensures SetStatus(SetStatus(orders, id, a), id, a) == SetStatus(orders, id, a)
  {
  }

  /** Status changes to different orders commute. */
  lemma SetStatusCommutes(orders: seq<Order>, x: string, a: OrderStatus, y: string, b: OrderStatus)
    requires x != y
    ensures SetStatus(SetStatus(orders, x, a), y, b) == SetStatus(SetStatus(orders, y, b), x, a)
  {
  }

  /** The local list mirrors the remote collection: each listed order is
      stored under its id, exactly as listed. */
  predicate Mirrors(orders: seq<Order>, remote: map<string, Order>) {
    forall i :: 0 <= i < |orders| ==> orders[i].id in remote && remote[orders[i].id] == orders[i]
  }

  /** `updateOrderStatus`: the remote update of `orderId` succeeds when the
      store answers (`ok`) and the document exists. Any status may replace
      any other; on success the previous error is left in place. */
  function UpdateOrderStatus(s: VendorOrdersState, remote: map<string, Order>, orderId: string,
                             newStatus: OrderStatus, ok: bool): (r: (VendorOrdersState, map<string, Order>))
    ensures !r.0.isLoading
    ensures ok && orderId in remote ==>
              r.1 == remote[orderId := remote[orderId].(status := newStatus)]
              && r.0.vendorOrders == SetStatus(s.vendorOrders, orderId, newStatus) && r.0.error == s.error
    ensures !(ok && orderId in remote) ==>
              r.1 == remote && r.0.vendorOrders == s.vendorOrders && r.0.error == Some(Storage)
  {
    if ok && orderId in remote then
      (s.(vendorOrders := SetStatus(s.vendorOrders, orderId, newStatus), isLoading := false),
       remote[orderId := remote[orderId].(status := newStatus)])
    else (s.(error := Some(Storage), isLoading := false), remote)
  }

  /** A successful update keeps the local list a mirror of the remote
      collection, and a failed one changes neither. */
  lemma UpdateKeepsMirror(s: VendorOrdersState, remote: map<string, Order>, orderId: string,
                          newStatus: OrderStatus, ok: bool)
    requires Mirrors(s.vendorOrders, remote)
    ensures var r := UpdateOrderStatus(s, remote, orderId, newStatus, ok);
            Mirrors(r.0.vendorOrders, r.1)
  {
    var r := UpdateOrderStatus(s, remote, orderId, newStatus, ok);
    forall i | 0 <= i < |r.0.vendorOrders|
      ensures r.0.vendorOrders[i].id in r.1 && r.1[r.0.vendorOrders[i].id] == r.0.vendorOrders[i]
    {
      assert s.vendorOrders[i].id in remote;
    }
  }

  /** There is no transition table: whatever status an order has, a
      successful update gives it any requested status and changes nothing
      else about it. */
  lemma AnyStatusToAnyStatus(o: Order, newStatus: OrderStatus, err: Option<Error>)
    ensures var r := UpdateOrderStatus(VendorOrdersState([o], false, err), map[o.id := o], o.id, newStatus, true);
            r.0.vendorOrders == [o.(status := newStatus)] && r.1[o.id] == o.(status := newStatus)
  {
  }

  /** `clearVendorOrders`. */
  function ClearVendorOrders(s: VendorOrdersState): (s': VendorOrdersState)
    ensures s'.vendorOrders == [] && !s'.isLoading && s'.error.None?
  {
    InitialVendorOrders
  }

  /** `listenToVendorOrders` as it starts: loading, error cleared. */
  function ListenToVendorOrders(s: VendorOrdersState): (s': VendorOrdersState)
    ensures s'.isLoading && s'.error.None? && s'.vendorOrders == s.vendorOrders
  {
    s.(isLoading := true, error := None)
  }

  /** The listener's handlers: a snapshot replaces the list in query order;
      an error keeps it. */
  function OnVendorOrdersSnapshot(s: VendorOrdersState, snapshot: Option<seq<Order>>): (s': VendorOrdersState)
    ensures !s'.isLoading
    ensures snapshot.Some? ==> s'.vendorOrders == snapshot.value && s'.error == s.error
    ensures snapshot.None? ==> s'.vendorOrders == s.vendorOrders && s'.error == Some(Storage)
  {
    match snapshot
    case Some(orders) => s.(vendorOrders := orders, isLoading := false)
    case None => s.(error := Some(Storage), isLoading := false)
  }

  /** The auth-store subscription: gaining the vendor role starts the
      listener, losing it (or signing out) clears the list. */
  function VendorOrdersOnAuthChange(s: VendorOrdersState, prev: AuthState, cur: AuthState): (s': VendorOrdersState)
    ensures VendorRoleChange(prev, cur) == BecameVendor ==> s' == ListenToVendorOrders(s)
    ensures VendorRoleChange(prev, cur) == LeftVendor ==> s'.vendorOrders == [] && s'.error.None? && !s'.isLoading
    ensures VendorRoleChange(prev, cur) == NoRoleChange ==> s' == s
  {
    match VendorRoleChange(prev, cur)
    case BecameVendor => ListenToVendorOrders(s)
    case LeftVendor => ClearVendorOrders(s)
    case NoRoleChange => s
  }

  /** A vendor who signs out leaves no orders behind in this store. */
  lemma SignOutClearsVendorOrders(s: VendorOrdersState, auth: AuthState)
    requires auth.user.Some? && auth.isVendor
    ensures VendorOrdersOnAuthChange(s, auth, SignOut(auth, true)).vendorOrders == []
  {
    SignOutEndsVendorSession(auth);
  }
}
