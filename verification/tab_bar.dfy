/** The bottom tab bar: the cart badge and the tab table. */
module TabBar {
  import opened Common
  import opened Decimal
  import opened Cart

  /** `reduce((sum, item) => sum + item.quantity, acc)`: a left fold. */
  function SumQuantities(acc: int, items: seq<CartItem>): int
    decreases |items|
  {
    if |items| == 0 then acc else SumQuantities(acc + items[0].quantity, items[1..])
  }

  /** `cartItemCountValue`: the quantities summed over the cart's lines, 0
      without a cart. */
  function BadgeCount(cart: Option<Cart>): (n: int)
    ensures cart.None? ==> n == 0
    ensures cart.Some? ==> n == TotalQuantity(cart.value.items)
  {
    match cart
    case None => 0
    case Some(c) =>
      FoldIsTotal(0, c.items);
      SumQuantities(0, c.items)
  }

  /** The left fold from `acc` adds the total quantity to `acc`. */
  lemma {:induction false} FoldIsTotal(acc: int, items: seq<CartItem>)
    ensures SumQuantities(acc, items) == acc + TotalQuantity(items)
    decreases |items|
  {
    if |items| > 0 {
      FoldIsTotal(acc + items[0].quantity, items[1..]);
    }
  }

  /** On a consistent cart the badge agrees with the stored total. */
  lemma BadgeMatchesStoredTotal(c: Cart)
    requires Consistent(c)
    ensures BadgeCount(Some(c)) == c.totalQuantity
  {
  }

  /** `showBadge`: only on the cart tab, and only when the count is positive. */
  predicate ShowBadge(routeName: string, count: int) {
    routeName == "cart" && count > 0
  }

  /** The badge text: "9+" above nine, else the count in decimal. */
  function BadgeText(count: int): (r: string)
    ensures count > 9 ==> r == "9+"
    ensures 0 <= count <= 9 ==> |r| == 1 && Value(r) == count
  {
    if count > 9 then "9+" else NumberText(count)
  }

  /** Shown badge texts are one of "1" to "9" or "9+", at most two characters. */
  lemma ShownBadgeIsShort(routeName: string, count: int)
    requires ShowBadge(routeName, count)
    ensures 1 <= |BadgeText(count)| <= 2 && BadgeText(count)[0] != '0'
  {
  }

  /** `getIconName`: the icon and label of a route; unknown routes get a
      question-mark icon and their own name. */
  function TabFor(routeName: string): (r: (string, string))
    ensures routeName !in {"index", "explore", "cart", "orders", "profile"} ==> r == ("help-circle", routeName)
  {
    if routeName == "index" then ("home", "Home")
    else if routeName == "explore" then ("leaf", "Explore")
    else if routeName == "cart" then ("cart", "Cart")
    else if routeName == "orders" then ("receipt", "Orders")
    else if routeName == "profile" then ("person", "Profile")
    else ("help-circle", routeName)
  }

  /** The five known routes have distinct icons, none of them the fallback. */
  lemma KnownTabsDistinct(a: string, b: string)
    requires a in {"index", "explore", "cart", "orders", "profile"}
    requires b in {"index", "explore", "cart", "orders", "profile"}
    requires TabFor(a).0 == TabFor(b).0
    ensures a == b && TabFor(a).0 != "help-circle"
  {
  }

  /** The tab press guard: navigate only from another tab, and only when no
      listener prevented the default. */
  predicate ShouldNavigate(isFocused: bool, defaultPrevented: bool) {
    !isFocused && !defaultPrevented
  }
}
