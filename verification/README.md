# HerbVerse core in Dafny

HerbVerse is a React Native marketplace for herbal products. Customers browse
a catalogue, keep a cart, and check out into orders. Vendors manage the items
they sell and move orders through their statuses. Its state lives in Zustand
stores backed by Firestore. This project models the logic inside those stores
and the small derivations and form checks of a few screens, as immutable
datatypes and pure functions, and proves properties of them.

Every store method is a transition from a store state, plus the remote
documents it reads, plus flags saying whether each remote step succeeds, to
the new store state and the new remote documents. Firestore, Firebase
authentication, timestamps and the parsing of numbers are not modelled: their
results are parameters. Prices are integer cents.

Modules, one per file:

- `Common`: `Option`, the store error (a message, or an opaque remote
  failure), and JavaScript truthiness of optional strings.
- `Text`: `trim`, the `\s` class, ASCII case mapping, and the
  capitalisation used for labels.
- `Decimal`: decimal digits, `String(n)` and `padStart`, with their
  injectivity and read-back.
- `Catalog` (`itemsStore.ts`): the item record, the `isActive` default,
  the active filter, and lookup by id.
- `Auth` (`authStore.ts`): user and profile, the `isVendor` flag, the six
  loading and error slots, profile update, sign-out, and the listener's
  same-uid short-circuit. It also classifies an auth change the way the other
  stores' subscriptions read it.
- `Cart` (`cartStore.ts`): totals, add-with-merge, remove, quantity update,
  the snapshot handler, clearing, and the auth subscription.
- `Orders` (`ordersStore.ts`): statuses, the order record, the order-number
  counter and format, checkout, and clearing.
- `VendorOrders` and `VendorItems` (`vendor/*.ts`): the status update, the
  item record written by `addItem`, the ownership check, the optimistic toggle
  with rollback, and the reaction to the vendor role.
- `Ui` and `AlertDialog`: the alert store and the dialog's button rules.
- `StatusBadge`, `Dashboard`, `OrdersScreen`, `Home`, `TabBar`: view
  derivations.
- `Signup`, `Login`, `AddItemForm`: form validation.

`addItemToCart` (`cartStore.ts`, lines 88-130) never checks the quantity it
is given; `Cart.AddAcceptsNonPositiveQuantity` shows a zero-quantity line being
added.

The cart's auth subscription asks for a new subscription on log-in unless the
cart already belongs to that user under an open one. `loadAndSubscribeCart`
returns early whenever a subscription is open, so the owner test has no effect:
a log-in under an open subscription leaves the cart store as it is.

## Model

| member | source | states |
|---|---|---|
| Common.KeepTruthy | src/stores/vendor/vendorItemsStore.ts:57-58 | an optional string is kept exactly when it is truthy (present and non-empty) |
| Text.Trim | src/app/auth/signup.tsx:93 | `trim` gives a slice of the input with no white space at either end; it is empty iff the input is all white space |
| Text.TrimIdempotent | src/app/vendor/items/add.tsx:50 | trimming twice is trimming once |
| Text.Lower | src/components/ui/StatusBadge.tsx:15 | lower-casing keeps the length and maps every character through the ASCII lower-case table |
| Text.LowerIdempotent | src/components/ui/StatusBadge.tsx:15 | lower-casing twice is lower-casing once |
| Text.Capitalize | src/app/vendor/orders/index.tsx:24 | the first character is upper-cased and the rest kept; the length is unchanged |
| Decimal.Digits | src/stores/ordersStore.ts:46 | `String(n)` of a natural number is a non-empty digit string with a leading '0' only for zero |
| Decimal.ValueOfDigits | src/stores/ordersStore.ts:46 | reading the digits of n back as a decimal gives n |
| Decimal.NumberText | src/stores/ordersStore.ts:46 | `String(n)` starts with '-' iff n < 0 and with '0' iff n = 0, and reads back as n when n >= 0 |
| Decimal.NumberTextInjective | src/stores/ordersStore.ts:46 | different integers have different texts |
| Decimal.PadStart | src/stores/ordersStore.ts:46 | `padStart` gives length max(width, len), ends with the input, and fills the front |
| Decimal.NumberTextCanonical | src/stores/ordersStore.ts:46 | a number's text never starts with '0' unless it is exactly "0" |
| Decimal.PadStartInjective | src/stores/ordersStore.ts:46 | zero-padding is injective on such texts |
| Catalog.FromDoc | src/stores/itemsStore.ts:35-41 | a missing `isActive` becomes true; every other field is copied |
| Catalog.ActiveItems | src/stores/itemsStore.ts:35-42 | the list holds only active items, every active document appears, and each entry comes from a document |
| Catalog.ActiveItemsAppend | src/stores/itemsStore.ts:35-42 | the filter distributes over concatenation, so query order is kept |
| Catalog.FetchItems | src/stores/itemsStore.ts:31-47 | success replaces the list by the active items and clears the error; failure keeps the list and records the error |
| Catalog.GetItemById | src/stores/itemsStore.ts:50-52 | the result exists iff some active item has that id, and it is the first such item |
| Catalog.FetchedItemsAreFound | src/stores/itemsStore.ts:35-52 | every active fetched document can be looked up by its id |
| Auth.Initial | src/stores/authStore.ts:47-69 | the store starts signed out and initializing, with only the auth flag loading and no errors |
| Auth.SignedInUid | src/stores/cartStore.ts:89-90 | a uid is available iff there is a user whose uid is non-empty |
| Auth.SetUserAndProfile | src/stores/authStore.ts:71-82 | the profile is kept only with a user; `isVendor` iff user, profile and `profile.isVendor` are all truthy; initializing and the auth flag end false, other flags and errors unchanged |
| Auth.ClearAuthError | src/stores/authStore.ts:84-104 | with a key only that error is cleared; without one all six are; nothing else changes |
| Auth.ClearAuthErrorIdempotent | src/stores/authStore.ts:84-104 | clearing twice is clearing once |
| Auth.Begin | src/stores/authStore.ts:145-150 | an operation sets its own flag and clears its own error, touching no other slot |
| Auth.Finish | src/stores/authStore.ts:157-173 | an operation ends with its own flag false, recording its error on failure, touching no other slot |
| Auth.SignInWithEmail | src/stores/authStore.ts:143-175 | sign-in leaves its flag false on both paths, sets its error only on failure, and leaves the user to the listener |
| Auth.SignUpWithEmail | src/stores/authStore.ts:177-222 | on success the profile written carries the uid and the vendor choice; on failure no profile is written and the error is recorded |
| Auth.FetchUserProfile | src/stores/authStore.ts:106-141 | the fetched profile is returned only on success; failure records the error and returns none |
| Auth.ApplyPatch | src/stores/authStore.ts:247-248 | a profile update overwrites exactly the fields given and keeps uid and email |
| Auth.UpdateUserProfile | src/stores/authStore.ts:224-266 | without a profile or with another uid, an error is recorded and nothing is written; on success the merged profile is written and kept |
| Auth.SignOut | src/stores/authStore.ts:268-308 | a successful sign-out nulls user and profile, clears `isVendor` and the auth and sign-out flags; a failure keeps the session and records the error |
| Auth.OnAuthStateChanged | src/stores/authStore.ts:310-331 | an event for the current user's uid changes nothing; otherwise the user becomes the event's, initializing ends, and `isVendor` holds iff a profile was fetched for it and says vendor |
| Auth.VendorRoleChange | src/stores/vendor/vendorOrdersStore.ts:84-88 | the vendor role is gained iff the new state has a vendor user and the old did not; it is lost iff the old state had one and the new does not |
| Auth.SessionChangeOf | src/stores/cartStore.ts:215-222 | a log-in is a user appearing, a log-out a user disappearing |
| Auth.SignOutEndsVendorSession | src/stores/authStore.ts:282-295 | a vendor's successful sign-out is a log-out and a loss of the vendor role |
| Cart.TotalPrice | src/stores/cartStore.ts:33-37 | the sum of price times quantity over the lines |
| Cart.TotalQuantity | src/stores/cartStore.ts:33-37 | the sum of the quantities over the lines |
| Cart.TotalsAppend | src/stores/cartStore.ts:33-37 | both totals are additive over concatenation |
| Cart.TotalsUpdate | src/stores/cartStore.ts:33-37 | replacing one line changes each total by the difference of that line |
| Cart.CalculateCartTotals | src/stores/cartStore.ts:33-37 | the two reductions compute the sum of price times quantity and the sum of quantities (0 and 0 for no lines) |
| Cart.FindIndex | src/stores/cartStore.ts:105 | `findIndex` gives the first line with that id, or none iff no line has it |
| Cart.AddOrMerge | src/stores/cartStore.ts:105-114 | an existing id gets only its quantity increased, all else equal; a new id is appended as one line carrying the item and quantity |
| Cart.AddOrMergeKeepsUnique | src/stores/cartStore.ts:105-114 | adding keeps line ids unique |
| Cart.AddOrMergeTotals | src/stores/cartStore.ts:105-115 | adding raises the quantity total by the quantity and the price total by the charged price times it |
| Cart.AddOrMergeTwice | src/stores/cartStore.ts:105-114 | adding a then b of one item equals adding a + b at the first time |
| Cart.RemoveId | src/stores/cartStore.ts:146 | the filter keeps exactly the lines with other ids, never the id itself, and changes nothing when the id is absent |
| Cart.RemoveIdAppend | src/stores/cartStore.ts:146 | the filter distributes over concatenation, so the kept lines stay in order |
| Cart.RemoveIdIdempotent | src/stores/cartStore.ts:146 | removing twice is removing once |
| Cart.RemoveIdKeepsUnique | src/stores/cartStore.ts:146 | removing keeps line ids unique |
| Cart.RemoveIdAt | src/stores/cartStore.ts:146 | with unique ids, removing the id of line k deletes exactly line k |
| Cart.RemoveIdTotals | src/stores/cartStore.ts:146 | with unique ids, removing a line lowers each total by that line's share |
| Cart.SetQuantity | src/stores/cartStore.ts:182 | only line k's quantity changes |
| Cart.Failed | src/stores/cartStore.ts:126-129 | a failed mutation records its error and keeps the cart and the document |
| Cart.Written | src/stores/cartStore.ts:116-124 | a successful mutation writes the document, clears the error and leaves the cart to the listener |
| Cart.AddItemToCart | src/stores/cartStore.ts:88-130 | no uid: error and no write; store failure: error and no write; otherwise the document holds the merged lines |
| Cart.RemoveItemFromCart | src/stores/cartStore.ts:132-159 | no uid or failure: no write; a missing cart fails with "Cart not found"; otherwise the filtered lines are written |
| Cart.RemoveAbsentIdKeepsItems | src/stores/cartStore.ts:146 | removing an absent id writes back the same lines |
| Cart.RemoveItemIdempotent | src/stores/cartStore.ts:132-159 | a second removal of the same id writes the same lines as the first |
| Cart.UpdateItemQuantityInCart | src/stores/cartStore.ts:161-197 | a quantity <= 0 is exactly removal; otherwise only that line's quantity is set, and an absent id fails with "Item not found in cart to update." and no write |
| Cart.UnauthenticatedMutationsDoNotWrite | src/stores/cartStore.ts:89-93 | without a user, add, remove and update each record "User not authenticated" and write nothing |
| Cart.MutationsKeepIdsUnique | src/stores/cartStore.ts:105-114 | every mutation keeps the stored line ids unique |
| Cart.AddOrMergeKeepsPositive | src/stores/cartStore.ts:105-114 | adding a quantity of at least one keeps all quantities positive |
| Cart.RemoveIdKeepsPositive | src/stores/cartStore.ts:146 | removing keeps all quantities positive |
| Cart.MutationsKeepQuantitiesPositive | src/stores/cartStore.ts:88-197 | with quantities of at least one, every mutation keeps the stored quantities positive |
| Cart.AddAcceptsNonPositiveQuantity | src/stores/cartStore.ts:105-114 | a zero quantity is added as a line: the store does not validate quantities |
| Cart.LoadAndSubscribeCart | src/stores/cartStore.ts:46-49 | an empty uid or an existing subscription is a no-op; otherwise loading starts with the error cleared |
| Cart.CartOfDoc | src/stores/cartStore.ts:61-65 | a stored cart is shown with its lines (none when missing) and totals recomputed from them |
| Cart.EmptyCart | src/stores/cartStore.ts:66-77 | the default cart belongs to the user and has no lines and zero totals |
| Cart.OnCartSnapshot | src/stores/cartStore.ts:53-79 | every snapshot yields a consistent cart: the stored lines with recomputed totals, or the empty cart (written back) when the document is missing |
| Cart.SnapshotIgnoresStoredTotals | src/stores/cartStore.ts:61-65 | documents that differ only in stored totals give the same cart |
| Cart.OnCartSnapshotError | src/stores/cartStore.ts:80-83 | a listener error records the error and ends the subscription, keeping the cart |
| Cart.ClearLocalCart | src/stores/cartStore.ts:199-206 | clearing drops the cart, the error, loading and the subscription |
| Cart.CartOnAuthChange | src/stores/cartStore.ts:210-225 | log-out clears the cart; log-in with a subscription open changes nothing, whoever's cart is held; log-in with none open starts loading and subscribing, keeping the cart; other changes do nothing |
| Cart.LogOutThenLogInSubscribes | src/stores/cartStore.ts:199-225 | log-out closes the subscription, so the next log-in always opens a new one from no cart |
| Cart.AddThenSnapshot | src/stores/cartStore.ts:88-130 | after a successful add, the next snapshot shows the merged lines with their totals |
| Orders.StatusName | src/stores/ordersStore.ts:6 | the string each status is stored as |
| Orders.StatusNameInjective | src/stores/ordersStore.ts:6 | the six statuses are stored as six different strings |
| Orders.NextCount | src/stores/ordersStore.ts:40-45 | the next count is the stored count plus one, or 1 when the document or count is missing |
| Orders.OrderNumber | src/stores/ordersStore.ts:46 | the number is "ORD-" followed by the count's text zero-padded to six |
| Orders.OrderNumberValue | src/stores/ordersStore.ts:46 | for a count >= 0 the part after "ORD-" is all digits and reads back as the count; below a million it is exactly ten characters |
| Orders.ValueWithLeadingZeros | src/stores/ordersStore.ts:46 | zero padding does not change a decimal value |
| Orders.DigitsBelow | src/stores/ordersStore.ts:46 | a number below 10^w has at most w digits |
| Orders.OrderNumberInjective | src/stores/ordersStore.ts:46 | distinct counts give distinct order numbers |
| Orders.GenerateOrderNumber | src/stores/ordersStore.ts:36-48 | a committed transaction stores the next count and returns its number; a failed one changes nothing |
| Orders.ConsecutiveOrderNumbersDiffer | src/stores/ordersStore.ts:36-48 | two committed runs in a row hand out consecutive counts and different numbers |
| Orders.CounterCountsCheckouts | src/stores/ordersStore.ts:40-45 | from no counter, the n-th committed run hands out count n |
| Orders.SnapshotOrder | src/stores/ordersStore.ts:73-82 | the order copies the cart's lines and totals, with status pending, the user's uid and the number |
| Orders.CreateOrderFromCart | src/stores/ordersStore.ts:56-101 | no user: "User not authenticated", null, no write; empty or missing cart: "Cart is empty"; an id is returned iff every step succeeds, and then the order is written, the cart's lines emptied and `currentOrder` set; loading always ends false |
| Orders.OrderPlacedCartKept | src/stores/ordersStore.ts:84-100 | when the cart update fails after the order write, the order exists, the cart keeps its lines and null is returned |
| Orders.CheckoutEmptiesCart | src/stores/ordersStore.ts:86-92 | after a successful checkout the cart snapshot shows no lines and zero totals |
| Orders.OrderTotalsMatchItems | src/stores/ordersStore.ts:73-82 | an order taken from a consistent cart stores the totals of its own lines |
| Orders.ClearOrders | src/stores/ordersStore.ts:157-159 | clearing empties the orders and nulls `currentOrder` and the error |
| VendorOrders.SetStatus | src/stores/vendor/vendorOrdersStore.ts:61-66 | the matching order gets the new status, every other order is identical, length and positions are kept |
| VendorOrders.SetStatusAbsent | src/stores/vendor/vendorOrdersStore.ts:62-64 | an id matching no order leaves the list unchanged |
| VendorOrders.SetStatusLastWins | src/stores/vendor/vendorOrdersStore.ts:61-66 | of two updates to one order the later wins; repeating an update changes nothing more |
| VendorOrders.SetStatusCommutes | src/stores/vendor/vendorOrdersStore.ts:61-66 | updates to different orders commute |
| VendorOrders.UpdateOrderStatus | src/stores/vendor/vendorOrdersStore.ts:53-71 | success writes the status remotely and applies it locally, keeping the error; failure keeps the list, records the error; loading ends false |
| VendorOrders.UpdateKeepsMirror | src/stores/vendor/vendorOrdersStore.ts:53-71 | a local list that mirrors the remote orders still does after an update |
| VendorOrders.AnyStatusToAnyStatus | src/stores/vendor/vendorOrdersStore.ts:53-60 | there is no transition table: any status can replace any other |
| VendorOrders.ClearVendorOrders | src/stores/vendor/vendorOrdersStore.ts:73-75 | clearing empties the list and the error |
| VendorOrders.ListenToVendorOrders | src/stores/vendor/vendorOrdersStore.ts:35-36 | starting the listener sets loading and clears the error |
| VendorOrders.OnVendorOrdersSnapshot | src/stores/vendor/vendorOrdersStore.ts:41-48 | a snapshot replaces the list; an error keeps it and is recorded |
| VendorOrders.VendorOrdersOnAuthChange | src/stores/vendor/vendorOrdersStore.ts:80-94 | gaining the vendor role starts the listener, losing it clears the orders, anything else does nothing |
| VendorOrders.SignOutClearsVendorOrders | src/stores/vendor/vendorOrdersStore.ts:88-93 | a vendor's sign-out leaves no orders in the store |
| VendorItems.NewRecord | src/stores/vendor/vendorItemsStore.ts:49-58 | the record carries the vendor's uid, `isActive` true unless given false, and image and category only when truthy |
| VendorItems.FetchVendorItems | src/stores/vendor/vendorItemsStore.ts:25-38 | success replaces the list and clears the error; failure keeps it and records the error |
| VendorItems.AddItem | src/stores/vendor/vendorItemsStore.ts:40-68 | no uid: error, null, no write; an id is returned iff the write succeeds, and then the record is stored and the list refetched |
| VendorItems.FindItem | src/stores/vendor/vendorItemsStore.ts:78 | `find` returns the first listed item with that id, or none iff there is none |
| VendorItems.ApplyItemPatch | src/stores/vendor/vendorItemsStore.ts:82-85 | an edit overwrites exactly the given fields (name, description, price, image, category, flag) and keeps the others, the id and the vendor |
| VendorItems.UpdateItem | src/stores/vendor/vendorItemsStore.ts:70-92 | no uid: error, no write; an item missing locally or listed under another vendor fails with the ownership error and no write; an owned item whose write fails records the error and keeps the list; a successful write applies the edit and refetches; anything written passed the check |
| VendorItems.OtherVendorsItemUntouched | src/stores/vendor/vendorItemsStore.ts:78-81 | an item listed under another vendor is never written |
| VendorItems.SetActive | src/stores/vendor/vendorItemsStore.ts:95-100 | the matching items get the flag, every other item is identical |
| VendorItems.ToggleItemActiveStatus | src/stores/vendor/vendorItemsStore.ts:94-115 | the flag is applied before the write; on failure the matching items get the negated flag and the error is recorded; on success the remote flag is set |
| VendorItems.RollbackRestoresWhenFlipped | src/stores/vendor/vendorItemsStore.ts:106-112 | when the caller asks for the opposite of each matching item's flag, a failed toggle restores the list |
| VendorItems.RollbackIsNotUndo | src/stores/vendor/vendorItemsStore.ts:106-112 | the rollback writes the negated request, not the prior value: an active item asked to be active ends inactive |
| VendorItems.VendorItemsOnAuthChange | src/stores/vendor/vendorItemsStore.ts:119-132 | a new vendor session fetches only into an empty list; losing the role clears the list |
| VendorItems.SignOutClearsVendorItems | src/stores/vendor/vendorItemsStore.ts:128-131 | a vendor's sign-out leaves no items in the store |
| Ui.InitialUi | src/stores/uiStore.ts:30-36 | the state the store starts in (its content is stated by InitialAlertIsEmpty) |
| Ui.InitialAlertIsEmpty | src/stores/uiStore.ts:30-36 | the initial alert is hidden, empty, of type "info" with no buttons |
| Ui.ShowAlert | src/stores/uiStore.ts:37 | showing makes the alert visible with exactly the given content |
| Ui.HideAlert | src/stores/uiStore.ts:38-41 | hiding makes the alert invisible and keeps its content |
| Ui.HideAlertIdempotent | src/stores/uiStore.ts:37-41 | hiding is idempotent, and hiding after showing keeps the shown content |
| Ui.SetKeyboardVisible | src/stores/uiStore.ts:43 | only the keyboard flag changes |
| AlertDialog.Press | src/components/ui/CustomAlertDialog.tsx:55-64 | the callback runs iff present; the dialog hides iff the button is not destructive, not loading, and no button is loading |
| AlertDialog.PressInStore | src/components/ui/CustomAlertDialog.tsx:60-63 | a press hides the alert in the store exactly when the hide rule allows |
| AlertDialog.LoadingDialogStaysOpen | src/components/ui/CustomAlertDialog.tsx:62 | with a loading button present, no press closes the dialog |
| AlertDialog.FirstCancel | src/components/ui/CustomAlertDialog.tsx:84 | the first cancel button, or none iff there is none |
| AlertDialog.BackRequest | src/components/ui/CustomAlertDialog.tsx:82-90 | the back gesture presses the first cancel button; without one, a lone button styled exactly 'default'; otherwise nothing |
| AlertDialog.LoneUnstyledButtonIgnored | src/components/ui/CustomAlertDialog.tsx:87 | a lone button with no style is not pressed by the back gesture |
| AlertDialog.LookFor | src/components/ui/CustomAlertDialog.tsx:36-51 | unknown dialog types get the 'notifications' look |
| AlertDialog.LooksAreDistinct | src/components/ui/CustomAlertDialog.tsx:36-51 | the five types and the fallback have distinct icons |
| AlertDialog.ButtonTextStyle | src/components/ui/CustomAlertDialog.tsx:66-75 | the text is red exactly for a destructive button, gray exactly for a cancel button, and the primary colour exactly for the others |
| AlertDialog.ButtonTextClasses | src/components/ui/CustomAlertDialog.tsx:66-75 | two buttons look alike iff both are destructive, both cancel, or both neither; an unstyled button looks like a 'default' one |
| StatusBadge.StyleOfLower | src/components/ui/StatusBadge.tsx:46-51 | any other status gets the 'help-outline' look |
| StatusBadge.StatusStyle | src/components/ui/StatusBadge.tsx:14-53 | the status is lower-cased and matched: each of the five statuses has its icon, anything else the fallback |
| StatusBadge.StatusStyleIgnoresCase | src/components/ui/StatusBadge.tsx:15 | statuses equal up to case look alike |
| StatusBadge.UpperCaseMatches | src/components/ui/StatusBadge.tsx:15 | "PENDING" and "Delivered" look like their lower-case forms |
| StatusBadge.OrderStatusBadges | src/components/ui/StatusBadge.tsx:16-51 | among order statuses only 'failed' falls back; the other five have distinct icons |
| StatusBadge.LowerOfStatusName | src/stores/ordersStore.ts:6 | stored status names are already lower case |
| StatusBadge.SizeOrDefault | src/components/ui/StatusBadge.tsx:12 | the size defaults to medium |
| StatusBadge.Classes | src/components/ui/StatusBadge.tsx:56-74 | every size has an icon size of 12, 16 or 18 |
| StatusBadge.ClassesGrow | src/components/ui/StatusBadge.tsx:56-72 | icon sizes grow with the size and paddings differ |
| Dashboard.PendingCount | src/app/vendor/index.tsx:34 | the count is at most the number of orders, 0 iff none is pending, all iff all are |
| Dashboard.ActiveCount | src/app/vendor/index.tsx:35 | the count is at most the number of items, 0 iff none has a true `isActive`, and 1 for a single item iff its flag is true |
| Dashboard.ActiveCountAppend | src/app/vendor/index.tsx:35 | the count adds up over a split of the list, so it is the number of items whose flag is true |
| Dashboard.TotalSales | src/app/vendor/index.tsx:36-38 | sales are the sum of `totalPrice` over delivered orders (its properties follow) |
| Dashboard.TotalSalesAppend | src/app/vendor/index.tsx:36-38 | sales are additive over concatenation |
| Dashboard.NoDeliveredNoSales | src/app/vendor/index.tsx:36-38 | without delivered orders sales are 0 |
| Dashboard.SalesIgnoreUndelivered | src/app/vendor/index.tsx:37 | changing an undelivered order's price never changes sales |
| Dashboard.DeliveringAddsPrice | src/app/vendor/index.tsx:36-38 | with unique ids, marking an undelivered order delivered adds exactly its price |
| OrdersScreen.StatusOptions | src/app/vendor/orders/index.tsx:11 | the status options (their content is stated by StatusOptionsComplete) |
| OrdersScreen.StatusOptionsComplete | src/app/vendor/orders/index.tsx:11 | the options are the six statuses once each, from pending to failed |
| OrdersScreen.FilterOrders | src/app/vendor/orders/index.tsx:106-109 | 'all' returns the list; a status returns exactly the orders with it |
| OrdersScreen.FilterOrdersAppend | src/app/vendor/orders/index.tsx:108 | filtering distributes over concatenation, so the original order is kept |
| OrdersScreen.PendingCountIsFilterLength | src/app/vendor/index.tsx:34 | the dashboard's pending count is the length of the pending filter |
| OrdersScreen.AllStatuses | src/app/vendor/orders/index.tsx:132 | 'all' followed by the six options |
| OrdersScreen.StatusLabel | src/app/vendor/orders/index.tsx:24 | the label is the status with its first letter upper-cased |
| OrdersScreen.StatusLabelText | src/app/vendor/orders/index.tsx:24 | the labels read "Pending", "Cancelled" and so on |
| OrdersScreen.StatusLabelInjective | src/app/vendor/orders/index.tsx:24 | different statuses get different labels |
| Text.CapitalizeInjective | src/app/vendor/orders/index.tsx:24 | capitalising keeps distinct strings that start in lower case distinct |
| OrdersScreen.OrderTitle | src/app/vendor/orders/index.tsx:39 | the order number when non-empty, else the first n characters of the id |
| OrdersScreen.CardTitle | src/app/vendor/orders/index.tsx:39 | the card title is "Order #" and the order's eight-character short name |
| OrdersScreen.CheckedOutOrdersShowNumber | src/app/vendor/orders/index.tsx:39 | an order placed by checkout is titled by its number |
| OrdersScreen.StatusButtons | src/app/vendor/orders/index.tsx:22-28 | one button per status, labelled, then Cancel with the cancel style |
| OrdersScreen.StatusDialog | src/app/vendor/orders/index.tsx:17-30 | a confirmation dialog titled with the order's short name |
| OrdersScreen.StatusButtonsShape | src/app/vendor/orders/index.tsx:22-28 | Cancel is the only cancel button and no button is loading |
| OrdersScreen.StatusDialogCloses | src/app/vendor/orders/index.tsx:17-30 | back presses Cancel, and every button closes the dialog |
| Home.Categories | src/screens/homescreen.tsx:44-47 | no duplicates, and a category is listed iff some item has it non-empty |
| Home.CategoriesOfPrefix | src/screens/homescreen.tsx:45-46 | categories are listed in order of first occurrence |
| Home.CategoryList | src/screens/homescreen.tsx:44-47 | the one-pass computation with a seen set gives the categories |
| Home.FilteredHerbs | src/screens/homescreen.tsx:49-54 | no selection gives all items; a selection gives exactly the items with that category |
| Home.FilteredHerbsAppend | src/screens/homescreen.tsx:53 | the category filter distributes over concatenation, so the shown items keep their order |
| Home.ChipsAreNonEmpty | src/screens/homescreen.tsx:44-54 | selecting a listed category never shows an empty list |
| Home.NextSelection | src/components/home/PopularHerbsSection.tsx:112 | pressing the selected category clears it; pressing another selects it |
| Home.PressTwiceClears | src/components/home/PopularHerbsSection.tsx:112 | pressing the selected chip restores the unfiltered list |
| Home.RecentOrder | src/screens/homescreen.tsx:62 | there is a recent order iff there are orders, and it is one of them |
| Home.RecentIsNewest | src/screens/homescreen.tsx:62 | on a newest-first list the recent order is a newest one |
| Home.PairUp | src/components/home/PopularHerbsSection.tsx:31-42 | concatenating the pairs gives the items; pairs have one or two items, only the last may have one; there are ceil(n/2); a missing list gives none |
| TabBar.SumQuantities | src/components/tabbar.tsx:19 | the `reduce` over the lines from a start value (FoldIsTotal states its value) |
| TabBar.BadgeCount | src/components/tabbar.tsx:19 | the count is the sum of quantities, or 0 without a cart |
| TabBar.FoldIsTotal | src/components/tabbar.tsx:19 | the left fold from a start value adds the total quantity |
| TabBar.BadgeMatchesStoredTotal | src/components/tabbar.tsx:19 | on a consistent cart the badge equals the stored quantity total |
| TabBar.ShowBadge | src/components/tabbar.tsx:76 | the badge shows iff the route is 'cart' and the count is positive |
| TabBar.BadgeText | src/components/tabbar.tsx:144 | "9+" above nine, else the count's one-digit text |
| TabBar.ShownBadgeIsShort | src/components/tabbar.tsx:76 | a shown badge text has one or two characters and no leading '0' |
| TabBar.ShouldNavigate | src/components/tabbar.tsx:64-66 | a press navigates iff the tab is not focused and the event was not prevented |
| TabBar.TabFor | src/components/tabbar.tsx:21-36 | unknown routes get 'help-circle' and their own name |
| TabBar.KnownTabsDistinct | src/components/tabbar.tsx:21-36 | the five known routes have distinct icons, none the fallback |
| Signup.EmailPattern | src/app/auth/signup.tsx:109 | the regex, read by its split points: a non-empty local part, '@', a non-empty domain head, '.', a non-empty tail, no white space and no other '@' |
| Signup.AtCountZero | src/app/auth/signup.tsx:109 | no '@' is counted iff there is none |
| Signup.AtCountOne | src/app/auth/signup.tsx:109 | with an '@' at i, there is exactly one iff none elsewhere |
| Signup.AtIndex | src/app/auth/signup.tsx:109 | the first '@', or none iff there is none |
| Signup.EmailPatternIff | src/app/auth/signup.tsx:109-110 | the regex holds iff: no white space, exactly one '@', text before it, and a '.' with text on both sides after it |
| Signup.HandleSignup | src/app/auth/signup.tsx:92-117 | blank name or e-mail or empty password, then a password under six, then a failed pattern, are reported in that order; otherwise sign-up gets the fields untrimmed |
| Signup.SubmittedEmailIsWellFormed | src/app/auth/signup.tsx:109-116 | a submitted e-mail has the plain-words shape and no surrounding blanks |
| Signup.SignupAlert | src/app/auth/signup.tsx:100-112 | each rejection shows a warning with one OK button; a submission shows none |
| Login.HandleLogin | src/app/auth/login.tsx:96-110 | an empty e-mail or password is rejected; otherwise sign-in gets both verbatim |
| Login.BlankFieldsPass | src/app/auth/login.tsx:97 | blank but non-empty fields pass |
| Login.SignupCredentialsPassLogin | src/app/auth/login.tsx:97 | credentials accepted by sign-up are accepted by log-in |
| Login.LoginAlert | src/app/auth/login.tsx:104 | only a rejection shows the "Missing Fields" warning |
| AddItemForm.HandleAddItem | src/app/vendor/items/add.tsx:35-53 | blank name, description or price text is rejected, then a missing or non-positive price; otherwise the data has the price, a trimmed or absent category, an image only when non-empty, untrimmed name and description |
| AddItemForm.AddItemAlert | src/app/vendor/items/add.tsx:36-44 | each rejection shows a warning with one OK button, titled "Missing Fields" or "Invalid Price"; a submission shows none |
| AddItemForm.SubmittedRecord | src/app/vendor/items/add.tsx:46-55 | the stored record of a submitted form has a positive price, the form's flag, the vendor, and a category absent or non-empty without surrounding blanks |
| AddItemForm.RecordOfSubmission | src/stores/vendor/vendorItemsStore.ts:49-58 | the stored record keeps the form's positive price, its flag, the vendor, and a trimmed non-empty category when one is given |
| AddItemForm.ErrorText | src/app/vendor/items/add.tsx:66 | an error's text is shown only when it is a non-empty message |
| AddItemForm.ResultAlert | src/app/vendor/items/add.tsx:55-70 | success alert iff an id came back; otherwise the error text or the generic message |
| AddItemForm.AddAndAlertAsWritten | src/app/vendor/items/add.tsx:55-70 | as written, the failure message reads the error from before the call |
| AddItemForm.AddAndAlert | src/app/vendor/items/add.tsx:55-70 | the failure message reads the error the call left |
| AddItemForm.AlertFollowsStore | src/app/vendor/items/add.tsx:55-70 | the success alert shows iff the vendor is signed in and the write succeeds; a signed-out vendor is told "Vendor not authenticated" |
| AddItemForm.StaleErrorHidesReason | src/app/vendor/items/add.tsx:26-66 | with no earlier error, the as-written handler shows the generic message to a signed-out vendor |

## Findings

| source | as written | input that shows it | evidently intended | confidence | as-written member | corrected member |
|---|---|---|---|---|---|---|
| src/app/vendor/items/add.tsx:26-66 | the failure alert reads `error` from the render that created the handler, so it shows the store's error from before `addItem` | a signed-out vendor on a screen that rendered with no error: `addItem` records "Vendor not authenticated" and the alert says "Could not add the item. Please try again." | show the error `addItem` just recorded | medium, not executed | AddItemForm.AddAndAlertAsWritten (AddItemForm.StaleErrorHidesReason) | AddItemForm.AddAndAlert (AddItemForm.AlertFollowsStore) |

## Left out

- Remote I/O: every Firestore and Firebase call is a parameter: the document read, the query answer, and a success flag per remote step.
- Transactions: the order counter's transaction is one step that commits or fails. Concurrent checkouts racing on the counter are not modelled.
- Checkout's order write and cart update are not atomic. The model gives the outcome of running them in sequence.
- Timestamps (`serverTimestamp`, `Timestamp.now`, `updatedAt`, `createdAt`) are dropped or given as an abstract tick. Sorting by `createdAt` is the query's job and is a parameter.
- Floating point: prices and totals are integer cents. The parsed price on the add-item form is given as `Option<int>`, because `parseFloat` is not modelled.
- Card-width arithmetic and carousel index rounding are float computations for layout.
- Concurrency: overlapping async calls and what a second call sees mid-flight are not modelled. The toggle's two moments are modelled as separate states.
- `fetchUserOrders`, `listenToUserOrders`, `fetchVendorOrders` and the orders store's auth subscription are query plumbing. Only their list handlers are modelled.
- Listener unsubscribe bookkeeping and console logging.
- Rendering, animation, navigation, layouts, configuration and barrel files.
- Text.Lower: only ASCII letters are case-mapped; JavaScript's full Unicode `toLowerCase` is not modelled.
- Text.Capitalize: only ASCII letters are upper-cased, for the same reason.
- Signup.HandleSignup: JavaScript string length counts UTF-16 code units, while the model counts characters. The two agree on the Basic Multilingual Plane.
- Cart.OnCartSnapshot: a stored cart without an `items` field is shown with no lines. The code keeps the field absent on the cart object.
- Auth.ApplyPatch: a patch key set explicitly to `undefined` is not modelled; a field is either given or left alone.
- VendorItems.ApplyItemPatch: likewise, an edit cannot clear an optional field.
- AddItemForm.ErrorText: the text of a remote failure is opaque, so only the store's own messages are shown verbatim.
- Decimal.NumberText: `String(n)` is modelled for integers; numbers beyond 2^53 and exponent notation are not.
