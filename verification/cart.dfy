/** The cart store: one cart document per user holding its line items, totals
    recomputed from the items on every snapshot, and add / remove / update
    operations that rewrite the stored item list. */
module Cart {
  import opened Common
  import opened Catalog
  import opened Auth

  /** A line of the cart: a copy of the catalogue item taken when it was first
      added, its quantity, and the tick at which it was added. */
  datatype CartItem = CartItem(item: Item, quantity: int, addedAt: int)

  function LinePrice(ci: CartItem): int {
    ci.item.price * ci.quantity
  }

  /** Sum of price times quantity over the lines, in cents. */
  function TotalPrice(items: seq<CartItem>): int {
    if |items| == 0 then 0 else LinePrice(items[0]) + TotalPrice(items[1..])
  }

  /** Sum of the quantities over the lines. */
  function TotalQuantity(items: seq<CartItem>): int {
    if |items| == 0 then 0 else items[0].quantity + TotalQuantity(items[1..])
  }

  /** Both totals are additive over concatenation. */
  lemma {:induction false} TotalsAppend(a: seq<CartItem>, b: seq<CartItem>)
    ensures TotalPrice(a + b) == TotalPrice(a) + TotalPrice(b)
    ensures TotalQuantity(a + b) == TotalQuantity(a) + TotalQuantity(b)
  {
    if |a| == 0 {
      assert a + b == b;
    } else {
      assert (a + b)[1..] == a[1..] + b;
      TotalsAppend(a[1..], b);
    }
  }

  /** Replacing one line changes each total by that line's difference only. */
  lemma TotalsUpdate(items: seq<CartItem>, k: nat, x: CartItem)
    requires k < |items|
    ensures TotalPrice(items[k := x]) == TotalPrice(items) - LinePrice(items[k]) + LinePrice(x)
    ensures TotalQuantity(items[k := x]) == TotalQuantity(items) - items[k].quantity + x.quantity
  {
    assert items == items[..k] + [items[k]] + items[k + 1..];
    assert items[k := x] == items[..k] + [x] + items[k + 1..];
    TotalsAppend(items[..k] + [items[k]], items[k + 1..]);
    TotalsAppend(items[..k], [items[k]]);
    TotalsAppend(items[..k] + [x], items[k + 1..]);
    TotalsAppend(items[..k], [x]);
  }

  /** `calculateCartTotals`: the two `reduce` folds, left to right from 0.
      They agree with the totals defined line by line, so an empty list gives
      (0, 0). */
  method CalculateCartTotals(items: seq<CartItem>) returns (totalPrice: int, totalQuantity: int)
    ensures totalPrice == TotalPrice(items)
    ensures totalQuantity == TotalQuantity(items)
  {
    totalPrice, totalQuantity := 0, 0;
    var i := 0;
    while i < |items|
      invariant 0 <= i <= |items|
      invariant totalPrice == TotalPrice(items[..i])
      invariant totalQuantity == TotalQuantity(items[..i])
    {
      TotalsAppend(items[..i], [items[i]]);
      assert items[..i + 1] == items[..i] + [items[i]];
      totalPrice := totalPrice + items[i].item.price * items[i].quantity;
      totalQuantity := totalQuantity + items[i].quantity;
      i := i + 1;
    }
    assert items[..i] == items;
  }

  predicate HasId(items: seq<CartItem>, id: string) {
    exists i :: 0 <= i < |items| && items[i].item.id == id
  }

  /** No two lines share an item id. */
  predicate UniqueIds(items: seq<CartItem>) {
    forall i, j :: 0 <= i < j < |items| ==> items[i].item.id != items[j].item.id
  }

  /** Every line has a quantity of at least one. */
  predicate PositiveQuantities(items: seq<CartItem>) {
    forall i :: 0 <= i < |items| ==> items[i].quantity >= 1
  }

  /** `findIndex(ci => ci.id === id)`: the first line with that id. */
  function FindIndex(items: seq<CartItem>, id: string): (r: Option<nat>)
    ensures r.Some? ==> r.value < |items| && items[r.value].item.id == id
    ensures r.Some? ==> forall j :: 0 <= j < r.value ==> items[j].item.id != id
    ensures r.None? <==> !HasId(items, id)
  {
    if |items| == 0 then None
    else if items[0].item.id == id then Some(0)
    else
      match FindIndex(items[1..], id)
      case None =>
        assert forall i :: 1 <= i < |items| ==> items[i] == items[1..][i - 1];
        None
      case Some(k) => Some(k + 1)
  }

  /** The first line with that id gets `quantity` more, or, when no line has
      that id, a new line carrying the item is appended. */
  function AddOrMerge(items: seq<CartItem>, item: Item, quantity: int, now: int): (r: seq<CartItem>)
    ensures HasId(items, item.id) ==>
              var k := FindIndex(items, item.id).value;
              |r| == |items|
              && r[k].item == items[k].item && r[k].addedAt == items[k].addedAt
              && r[k].quantity == items[k].quantity + quantity
              && forall j :: 0 <= j < |items| && j != k ==> r[j] == items[j]
    ensures !HasId(items, item.id) ==> r == items + [CartItem(item, quantity, now)]
    ensures HasId(r, item.id)
  {
    match FindIndex(items, item.id)
    case Some(k) => items[k := items[k].(quantity := items[k].quantity + quantity)]
    case None =>
      var r := items + [CartItem(item, quantity, now)];
      assert r[|items|].item.id == item.id;
      r
  }

  /** Adding keeps ids unique. */
  lemma AddOrMergeKeepsUnique(items: seq<CartItem>, item: Item, quantity: int, now: int)
    requires UniqueIds(items)
    ensures UniqueIds(AddOrMerge(items, item, quantity, now))
  {
    var r := AddOrMerge(items, item, quantity, now);
    if HasId(items, item.id) {
      assert forall j :: 0 <= j < |r| ==> r[j].item.id == items[j].item.id;
    }
  }

  /** The unit price an add is charged at: that of the line already holding
      the id (first-added pricing wins), else the item's own. */
  function ChargedPrice(items: seq<CartItem>, item: Item): int {
    match FindIndex(items, item.id)
    case Some(k) => items[k].item.price
    case None => item.price
  }

  /** Adding `quantity` raises the quantity total by exactly `quantity` and the
      price total by `quantity` units at the charged price. */
  lemma AddOrMergeTotals(items: seq<CartItem>, item: Item, quantity: int, now: int)
    ensures TotalQuantity(AddOrMerge(items, item, quantity, now)) == TotalQuantity(items) + quantity
    ensures TotalPrice(AddOrMerge(items, item, quantity, now)) == TotalPrice(items) + ChargedPrice(items, item) * quantity
  {
    match FindIndex(items, item.id)
    case Some(k) =>
      var x := items[k].(quantity := items[k].quantity + quantity);
      TotalsUpdate(items, k, x);
      assert LinePrice(x) == LinePrice(items[k]) + items[k].item.price * quantity by {
        assert LinePrice(x) == items[k].item.price * (items[k].quantity + quantity);
      }
    case None =>
      var line := CartItem(item, quantity, now);
      TotalsAppend(items, [line]);
      assert [line][1..] == [];
  }

  /** Two adds of the same item merge into one: it is one add of the summed
      quantity, stamped with the first add's tick. */
  lemma AddOrMergeTwice(items: seq<CartItem>, item: Item, a: int, b: int, t1: int, t2: int)
    ensures AddOrMerge(AddOrMerge(items, item, a, t1), item, b, t2) == AddOrMerge(items, item, a + b, t1)
  {
    var once := AddOrMerge(items, item, a, t1);
    match FindIndex(items, item.id)
    case Some(k) =>
      assert FindIndex(once, item.id) == Some(k);
    case None =>
      assert FindIndex(once, item.id) == Some(|items|);
  }

  /** `filter(ci => ci.id !== id)`: exactly the lines with another id. */
  function RemoveId(items: seq<CartItem>, id: string): (r: seq<CartItem>)
    ensures |r| <= |items|
    ensures forall x :: x in r <==> x in items && x.item.id != id
    ensures !HasId(r, id)
    ensures !HasId(items, id) ==> r == items
  {
    if |items| == 0 then []
    else
      var rest := RemoveId(items[1..], id);
      assert items == [items[0]] + items[1..];
      assert forall x :: x in items <==> x == items[0] || x in items[1..];
      if items[0].item.id == id then rest else [items[0]] + rest
  }

  /** Removal keeps the order of the lines it keeps: it distributes over
      concatenation. */
  lemma {:induction false} RemoveIdAppend(a: seq<CartItem>, b: seq<CartItem>, id: string)
    ensures RemoveId(a + b, id) == RemoveId(a, id) + RemoveId(b, id)
  {
    if |a| == 0 {
      assert a + b == b;
    } else {
      assert (a + b)[1..] == a[1..] + b;
      RemoveIdAppend(a[1..], b, id);
    }
  }

  /** Removing twice is removing once. */
  lemma RemoveIdIdempotent(items: seq<CartItem>, id: string)
    ensures RemoveId(RemoveId(items, id), id) == RemoveId(items, id)
  {
  }

  /** Removal keeps ids unique. */
  lemma {:induction false} RemoveIdKeepsUnique(items: seq<CartItem>, id: string)
    requires UniqueIds(items)
    ensures UniqueIds(RemoveId(items, id))
  {
    if |items| > 0 {
      RemoveIdKeepsUnique(items[1..], id);
      var rest := RemoveId(items[1..], id);
      forall j | 0 <= j < |rest|
        ensures rest[j].item.id != items[0].item.id
      {
        assert rest[j] in items[1..];
        var m :| 0 <= m < |items| - 1 && items[1..][m] == rest[j];
        assert items[m + 1] == rest[j];
      }
    }
  }

  /** With unique ids, removing the id of the line at `k` drops just that
      line and keeps all others in order. */
  lemma {:induction false} RemoveIdAt(items: seq<CartItem>, k: nat)
    requires UniqueIds(items) && k < |items|
    ensures RemoveId(items, items[k].item.id) == items[..k] + items[k + 1..]
  {
    var id := items[k].item.id;
    var tail := items[1..];
    if k == 0 {
      assert !HasId(tail, id) by {
        forall i | 0 <= i < |tail|
          ensures tail[i].item.id != id
        {
          assert tail[i] == items[i + 1];
        }
      }
    } else {
      assert UniqueIds(tail) by {
        forall i, j | 0 <= i < j < |tail|
          ensures tail[i].item.id != tail[j].item.id
        {
          assert tail[i] == items[i + 1] && tail[j] == items[j + 1];
        }
      }
      assert tail[k - 1] == items[k];
      RemoveIdAt(tail, k - 1);
      assert items[0].item.id != id;
      assert items[..k] == [items[0]] + tail[..k - 1];
      assert items[k + 1..] == tail[k..];
    }
  }

  /** With unique ids, removing the line at `k` lowers the totals by that
      line's share. */
  lemma RemoveIdTotals(items: seq<CartItem>, k: nat)
    requires UniqueIds(items) && k < |items|
    ensures TotalQuantity(RemoveId(items, items[k].item.id)) == TotalQuantity(items) - items[k].quantity
    ensures TotalPrice(RemoveId(items, items[k].item.id)) == TotalPrice(items) - LinePrice(items[k])
  {
    RemoveIdAt(items, k);
    var a, b := items[..k], items[k + 1..];
    assert items == (a + [items[k]]) + b;
    TotalsAppend(a + [items[k]], b);
    TotalsAppend(a, [items[k]]);
    TotalsAppend(a, b);
    assert TotalQuantity([items[k]]) == items[k].quantity;
    assert TotalPrice([items[k]]) == LinePrice(items[k]);
  }

  /** Sets the quantity of the line at `k`, nothing else. */
  function SetQuantity(items: seq<CartItem>, k: nat, q: int): (r: seq<CartItem>)
    requires k < |items|
    ensures |r| == |items| && r[k].item == items[k].item && r[k].addedAt == items[k].addedAt
    ensures r[k].quantity == q
    ensures forall j :: 0 <= j < |items| && j != k ==> r[j] == items[j]
  {
    items[k := items[k].(quantity := q)]
  }

  /** The stored cart document. Its totals may be stale or missing: the writes
      below never update them. */
  datatype StoredCart = StoredCart(
    userId: string,
    items: Option<seq<CartItem>>,
    totalPrice: Option<int>,
    totalQuantity: Option<int>)

  /** The stored lines, `[]` when the field is missing. */
  function StoredItems(d: StoredCart): seq<CartItem> {
    d.items.GetOr([])
  }

  /** The lines of a cart document that may not exist. */
  function CurrentItems(doc: Option<StoredCart>): seq<CartItem> {
    if doc.Some? then StoredItems(doc.value) else []
  }

  /** The cart held in local state. */
  datatype Cart = Cart(userId: string, items: seq<CartItem>, totalPrice: int, totalQuantity: int)

  /** The totals are those of the lines. */
  predicate Consistent(c: Cart) {
    c.totalPrice == TotalPrice(c.items) && c.totalQuantity == TotalQuantity(c.items)
  }

  datatype CartState = CartState(cart: Option<Cart>, isLoading: bool, error: Option<Error>, subscribing: bool)

  const InitialCartState := CartState(None, false, None, false)

  /** A store transition together with the cart document after it. */
  datatype CartStep = CartStep(state: CartState, doc: Option<StoredCart>)

  const NotAuthenticated := Message("User not authenticated")
  const CartNotFound := Message("Cart not found")
  const ItemNotInCart := Message("Item not found in cart to update.")

  /** A failed operation: its error recorded, nothing written. */
  function Failed(s: CartState, doc: Option<StoredCart>, e: Error): (r: CartStep)
    ensures r.doc == doc && r.state.error == Some(e) && !r.state.isLoading
    ensures r.state.cart == s.cart && r.state.subscribing == s.subscribing
  {
    CartStep(s.(isLoading := false, error := Some(e)), doc)
  }

  /** A successful operation: error cleared, `doc` written. */
  function Written(s: CartState, doc: StoredCart): (r: CartStep)
    ensures r.doc == Some(doc) && r.state.error.None? && !r.state.isLoading
    ensures r.state.cart == s.cart && r.state.subscribing == s.subscribing
  {
    CartStep(s.(isLoading := false, error := None), Some(doc))
  }

  /** `addItemToCart`: `doc` is the user's cart document, `ok` whether the
      remote store answers, `now` the tick stamped on a new line. The write
      merges `userId` and the new lines into the document (creating it if
      missing) and leaves its stored totals alone; local state only learns of
      it through the next snapshot. */
  function AddItemToCart(s: CartState, user: Option<User>, doc: Option<StoredCart>,
                         item: Item, quantity: int, now: int, ok: bool): (r: CartStep)
    ensures r.state.cart == s.cart && r.state.subscribing == s.subscribing && !r.state.isLoading
    ensures SignedInUid(user).None? ==> r.doc == doc && r.state.error == Some(NotAuthenticated)
    ensures SignedInUid(user).Some? && !ok ==> r.doc == doc && r.state.error == Some(Storage)
    ensures SignedInUid(user).Some? && ok ==>
              r.state.error.None? && r.doc.Some?
              && r.doc.value.userId == SignedInUid(user).value
              && r.doc.value.items == Some(AddOrMerge(CurrentItems(doc), item, quantity, now))
              && r.doc.value.totalPrice == (if doc.Some? then doc.value.totalPrice else None)
              && r.doc.value.totalQuantity == (if doc.Some? then doc.value.totalQuantity else None)
  {
    match SignedInUid(user)
    case None => Failed(s, doc, NotAuthenticated)
    case Some(uid) =>
      if !ok then Failed(s, doc, Storage)
      else
        var items := AddOrMerge(CurrentItems(doc), item, quantity, now);
        var written := match doc
          case Some(d) => d.(userId := uid, items := Some(items))
          case None => StoredCart(uid, Some(items), None, None);
        Written(s, written)
  }

  /** `removeItemFromCart`: the stored list loses every line with that id,
      the others kept in order; a missing document is an error. */
  function RemoveItemFromCart(s: CartState, user: Option<User>, doc: Option<StoredCart>,
                              itemId: string, ok: bool): (r: CartStep)
    ensures r.state.cart == s.cart && r.state.subscribing == s.subscribing && !r.state.isLoading
    ensures SignedInUid(user).None? ==> r.doc == doc && r.state.error == Some(NotAuthenticated)
    ensures SignedInUid(user).Some? && !ok ==> r.doc == doc && r.state.error == Some(Storage)
    ensures SignedInUid(user).Some? && ok && doc.None? ==> r.doc == doc && r.state.error == Some(CartNotFound)
    ensures SignedInUid(user).Some? && ok && doc.Some? ==>
              r.state.error.None?
              && r.doc == Some(doc.value.(items := Some(RemoveId(StoredItems(doc.value), itemId))))
  {
    if SignedInUid(user).None? then Failed(s, doc, NotAuthenticated)
    else if !ok then Failed(s, doc, Storage)
    else match doc
      case None => Failed(s, doc, CartNotFound)
      case Some(d) => Written(s, d.(items := Some(RemoveId(StoredItems(d), itemId))))
  }

  /** Removing an id the stored list does not hold writes the list back
      unchanged. */
  lemma RemoveAbsentIdKeepsItems(s: CartState, user: Option<User>, d: StoredCart, itemId: string)
    requires SignedInUid(user).Some? && !HasId(StoredItems(d), itemId)
    ensures StoredItems(RemoveItemFromCart(s, user, Some(d), itemId, true).doc.value) == StoredItems(d)
  {
  }

  /** A second removal of the same id changes nothing more. */
  lemma RemoveItemIdempotent(s: CartState, user: Option<User>, doc: Option<StoredCart>, itemId: string, ok: bool)
    requires SignedInUid(user).Some? && ok
    ensures var once := RemoveItemFromCart(s, user, doc, itemId, ok);
            RemoveItemFromCart(once.state, user, once.doc, itemId, ok) == once
  {
    var once := RemoveItemFromCart(s, user, doc, itemId, ok);
    if doc.Some? {
      RemoveIdIdempotent(StoredItems(doc.value), itemId);
    }
  }

  /** `updateItemQuantityInCart`: a quantity of zero or less is a removal;
      otherwise only the first line with that id gets the new quantity, and
      an id not in the cart is an error with no write. */
  function UpdateItemQuantityInCart(s: CartState, user: Option<User>, doc: Option<StoredCart>,
                                    itemId: string, newQuantity: int, ok: bool): (r: CartStep)
    ensures r.state.cart == s.cart && r.state.subscribing == s.subscribing && !r.state.isLoading
    ensures SignedInUid(user).None? ==> r.doc == doc && r.state.error == Some(NotAuthenticated)
    ensures SignedInUid(user).Some? && newQuantity <= 0 ==> r == RemoveItemFromCart(s, user, doc, itemId, ok)
    ensures SignedInUid(user).Some? && newQuantity > 0 && !ok ==> r.doc == doc && r.state.error == Some(Storage)
    ensures SignedInUid(user).Some? && newQuantity > 0 && ok && doc.None? ==>
              r.doc == doc && r.state.error == Some(CartNotFound)
    ensures SignedInUid(user).Some? && newQuantity > 0 && ok && doc.Some? && !HasId(StoredItems(doc.value), itemId) ==>
              r.doc == doc && r.state.error == Some(ItemNotInCart)
    ensures SignedInUid(user).Some? && newQuantity > 0 && ok && doc.Some? && HasId(StoredItems(doc.value), itemId) ==>
              var k := FindIndex(StoredItems(doc.value), itemId).value;
              r.state.error.None?
              && r.doc == Some(doc.value.(items := Some(SetQuantity(StoredItems(doc.value), k, newQuantity))))
  {
    if SignedInUid(user).None? then Failed(s, doc, NotAuthenticated)
    else if newQuantity <= 0 then RemoveItemFromCart(s, user, doc, itemId, ok)
    else if !ok then Failed(s, doc, Storage)
    else match doc
      case None => Failed(s, doc, CartNotFound)
      case Some(d) =>
        match FindIndex(StoredItems(d), itemId)
        case None => Failed(s, doc, ItemNotInCart)
        case Some(k) => Written(s, d.(items := Some(SetQuantity(StoredItems(d), k, newQuantity))))
  }

  /** With no signed-in user none of the three mutations writes anything, and
      each records the same error. */
  lemma UnauthenticatedMutationsDoNotWrite(s: CartState, user: Option<User>, doc: Option<StoredCart>,
                                           item: Item, quantity: int, now: int, ok: bool)
    requires SignedInUid(user).None?
    ensures AddItemToCart(s, user, doc, item, quantity, now, ok).doc == doc
    ensures RemoveItemFromCart(s, user, doc, item.id, ok).doc == doc
    ensures UpdateItemQuantityInCart(s, user, doc, item.id, quantity, ok).doc == doc
    ensures AddItemToCart(s, user, doc, item, quantity, now, ok).state.error == Some(NotAuthenticated)
    ensures RemoveItemFromCart(s, user, doc, item.id, ok).state.error == Some(NotAuthenticated)
    ensures UpdateItemQuantityInCart(s, user, doc, item.id, quantity, ok).state.error == Some(NotAuthenticated)
  {
  }

  /** Every write of the three mutations keeps the stored ids unique. */
  lemma MutationsKeepIdsUnique(s: CartState, user: Option<User>, doc: Option<StoredCart>,
                               item: Item, itemId: string, quantity: int, now: int, ok: bool)
    requires UniqueIds(CurrentItems(doc))
    ensures UniqueIds(CurrentItems(AddItemToCart(s, user, doc, item, quantity, now, ok).doc))
    ensures UniqueIds(CurrentItems(RemoveItemFromCart(s, user, doc, itemId, ok).doc))
    ensures UniqueIds(CurrentItems(UpdateItemQuantityInCart(s, user, doc, itemId, quantity, ok).doc))
  {
    AddOrMergeKeepsUnique(CurrentItems(doc), item, quantity, now);
    RemoveIdKeepsUnique(CurrentItems(doc), itemId);
    var u := UpdateItemQuantityInCart(s, user, doc, itemId, quantity, ok);
    if SignedInUid(user).Some? && quantity > 0 && ok && doc.Some? && HasId(StoredItems(doc.value), itemId) {
      var items := StoredItems(doc.value);
      var k := FindIndex(items, itemId).value;
      assert CurrentItems(u.doc) == SetQuantity(items, k, quantity);
      assert forall j :: 0 <= j < |items| ==> SetQuantity(items, k, quantity)[j].item.id == items[j].item.id;
    }
  }

  lemma AddOrMergeKeepsPositive(items: seq<CartItem>, item: Item, quantity: int, now: int)
    requires PositiveQuantities(items) && quantity >= 1
    ensures PositiveQuantities(AddOrMerge(items, item, quantity, now))
  {
    var added := AddOrMerge(items, item, quantity, now);
    if !HasId(items, item.id) {
      assert forall j :: 0 <= j < |items| ==> added[j] == items[j];
    }
  }

  lemma RemoveIdKeepsPositive(items: seq<CartItem>, id: string)
    requires PositiveQuantities(items)
    ensures PositiveQuantities(RemoveId(items, id))
  {
    var removed := RemoveId(items, id);
    forall j | 0 <= j < |removed|
      ensures removed[j].quantity >= 1
    {
      assert removed[j] in items;
    }
  }

  /** Positive adds and updates keep every stored quantity at one or more. */
  lemma MutationsKeepQuantitiesPositive(s: CartState, user: Option<User>, doc: Option<StoredCart>,
                                        item: Item, itemId: string, quantity: int, now: int, ok: bool)
    requires PositiveQuantities(CurrentItems(doc)) && quantity >= 1
    ensures PositiveQuantities(CurrentItems(AddItemToCart(s, user, doc, item, quantity, now, ok).doc))
    ensures PositiveQuantities(CurrentItems(RemoveItemFromCart(s, user, doc, itemId, ok).doc))
    ensures PositiveQuantities(CurrentItems(UpdateItemQuantityInCart(s, user, doc, itemId, quantity, ok).doc))
  {
    AddOrMergeKeepsPositive(CurrentItems(doc), item, quantity, now);
    RemoveIdKeepsPositive(CurrentItems(doc), itemId);
  }

  /** Nothing checks the sign of an added quantity: adding zero of a new item
      stores a line with quantity zero. */
  lemma AddAcceptsNonPositiveQuantity(item: Item, now: int)
    ensures var r := AddItemToCart(InitialCartState, Some(User("u")), None, item, 0, now, true);
            CurrentItems(r.doc) == [CartItem(item, 0, now)] && !PositiveQuantities(CurrentItems(r.doc))
  {
    assert !HasId([], item.id);
  }

  /** `loadAndSubscribeCart`: does nothing while a subscription is running or
      for an empty uid; otherwise starts loading. */
  function LoadAndSubscribeCart(s: CartState, userId: string): (s': CartState)
    ensures s.subscribing || userId == "" ==> s' == s
    ensures !(s.subscribing || userId == "") ==> s'.isLoading && s'.error.None? && s'.subscribing && s'.cart == s.cart
  {
    if s.subscribing || userId == "" then s
    else s.(isLoading := true, error := None, subscribing := true)
  }

  /** The local cart a snapshot produces: the stored lines (`[]` when the
      field is missing) with totals recomputed from them. */
  function CartOfDoc(d: StoredCart): (c: Cart)
    ensures Consistent(c) && c.userId == d.userId && c.items == StoredItems(d)
  {
    Cart(d.userId, StoredItems(d), TotalPrice(StoredItems(d)), TotalQuantity(StoredItems(d)))
  }

  /** The cart created for a user with no cart document. */
  function EmptyCart(userId: string): (c: Cart)
    ensures Consistent(c) && c.items == [] && c.totalPrice == 0 && c.totalQuantity == 0 && c.userId == userId
  {
    Cart(userId, [], 0, 0)
  }

  /** The snapshot listener on one snapshot of `carts/{userId}`: an existing
      document becomes the local cart with recomputed totals; a missing one
      gives an empty cart, also written back when `writeOk`. */
  function OnCartSnapshot(s: CartState, userId: string, doc: Option<StoredCart>, writeOk: bool): (r: CartStep)
    ensures r.state.cart.Some? && Consistent(r.state.cart.value) && !r.state.isLoading
    ensures r.state.error == s.error && r.state.subscribing == s.subscribing
    ensures doc.Some? ==> r.doc == doc && r.state.cart.value.items == StoredItems(doc.value)
                          && r.state.cart.value.userId == doc.value.userId
    ensures doc.None? ==> r.state.cart == Some(EmptyCart(userId))
    ensures doc.None? && writeOk ==> r.doc == Some(StoredCart(userId, Some([]), Some(0), Some(0)))
    ensures doc.None? && !writeOk ==> r.doc == doc
  {
    match doc
    case Some(d) => CartStep(s.(cart := Some(CartOfDoc(d)), isLoading := false), doc)
    case None =>
      var written := if writeOk then Some(StoredCart(userId, Some([]), Some(0), Some(0))) else None;
      CartStep(s.(cart := Some(EmptyCart(userId)), isLoading := false), written)
  }

  /** The stored totals are never trusted: two documents that differ only in
      their totals give the same local cart. */
  lemma SnapshotIgnoresStoredTotals(s: CartState, userId: string, d: StoredCart,
                                    price: Option<int>, quantity: Option<int>, writeOk: bool)
    ensures OnCartSnapshot(s, userId, Some(d), writeOk).state
         == OnCartSnapshot(s, userId, Some(d.(totalPrice := price, totalQuantity := quantity)), writeOk).state
  {
  }

  /** The listener's error callback: the error is kept and the subscription
      counts as stopped. */
  function OnCartSnapshotError(s: CartState): (s': CartState)
    ensures s'.error == Some(Storage) && !s'.isLoading && !s'.subscribing && s'.cart == s.cart
  {
    s.(error := Some(Storage), isLoading := false, subscribing := false)
  }

  /** `clearLocalCart`: back to the initial state. */
  function ClearLocalCart(s: CartState): (s': CartState)
    ensures s'.cart.None? && !s'.isLoading && s'.error.None? && !s'.subscribing
  {
    InitialCartState
  }

  /** The cart's subscription to the auth store: on log-in it asks to load
      the user's cart, on log-out it clears the local cart. The request is
      made unless that very cart is already subscribed, but
      `loadAndSubscribeCart` itself returns early while any subscription is
      open, so a log-in under an open subscription changes nothing, whoever's
      cart it holds. */
  function CartOnAuthChange(s: CartState, prev: AuthState, cur: AuthState): (s': CartState)
    ensures SessionChangeOf(prev, cur) == LoggedOut ==> s' == ClearLocalCart(s)
    ensures SessionChangeOf(prev, cur) == NoSessionChange ==> s' == s
    ensures SessionChangeOf(prev, cur).LoggedIn? && s.subscribing ==> s' == s
    ensures SessionChangeOf(prev, cur).LoggedIn? && !s.subscribing && cur.user.value.uid != "" ==>
              s'.isLoading && s'.subscribing && s'.error.None? && s'.cart == s.cart
  {
    match SessionChangeOf(prev, cur)
    case LoggedIn(user) =>
      if s.cart.None? || s.cart.value.userId != user.uid || !s.subscribing then LoadAndSubscribeCart(s, user.uid)
      else s
    case LoggedOut => ClearLocalCart(s)
    case NoSessionChange => s
  }

  /** Log-out closes the subscription, so the next log-in always opens a new
      one, starting from no cart. */
  lemma LogOutThenLogInSubscribes(s: CartState, a: AuthState, b: AuthState, c: AuthState)
    requires SessionChangeOf(a, b) == LoggedOut && SessionChangeOf(b, c).LoggedIn? && c.user.value.uid != ""
    ensures var s' := CartOnAuthChange(CartOnAuthChange(s, a, b), b, c);
            s'.subscribing && s'.isLoading && s'.error.None? && s'.cart.None?
  {
    var cleared := CartOnAuthChange(s, a, b);
    assert !cleared.subscribing && cleared.cart.None?;
  }

  /** An add followed by the snapshot it triggers leaves a local cart whose
      quantity total grew by exactly the added quantity. */
  lemma AddThenSnapshot(s: CartState, user: Option<User>, doc: Option<StoredCart>,
                        item: Item, quantity: int, now: int, writeOk: bool)
    requires SignedInUid(user).Some?
    ensures var added := AddItemToCart(s, user, doc, item, quantity, now, true);
            var seen := OnCartSnapshot(added.state, SignedInUid(user).value, added.doc, writeOk);
            seen.state.cart.value.totalQuantity == TotalQuantity(CurrentItems(doc)) + quantity
            && seen.state.cart.value.totalPrice
               == TotalPrice(CurrentItems(doc)) + ChargedPrice(CurrentItems(doc), item) * quantity
  {
    AddOrMergeTotals(CurrentItems(doc), item, quantity, now);
  }
}
