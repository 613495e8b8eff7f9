/** The vendor's item list: creating an item, the ownership check on
    editing, the optimistic active toggle with its rollback, and the reaction
    to the vendor role being gained or lost. */
module VendorItems {
  import opened Common
  import opened Auth

  /** An item document as the vendor screens see it. Documents are read
      without defaulting, so `isActive` and `vendorId` may be missing. */
  datatype VendorItem = VendorItem(
    id: string,
    name: string,
    description: string,
    price: int,
    imageUrl: Option<string>,
    category: Option<string>,
    isActive: Option<bool>,
    vendorId: Option<string>)

  datatype VendorItemsState = VendorItemsState(vendorItems: seq<VendorItem>, isLoading: bool, error: Option<Error>)

  const InitialVendorItems := VendorItemsState([], false, None)

  const VendorNotAuthenticated := Message("Vendor not authenticated")
  const NotOwned := Message("Item does not belong to this vendor or not found.")

  /** What the add-item form hands to `addItem`. */
  datatype NewItemData = NewItemData(
    name: string,
    description: string,
    price: int,
    imageUrl: Option<string>,
    category: Option<string>,
    isActive: Option<bool>)

  /** The document `addItem` writes under `id` for `vendorId`. */
  function NewRecord(id: string, data: NewItemData, vendorId: string): (r: VendorItem)
    ensures r.id == id && r.vendorId == Some(vendorId)
    ensures r.name == data.name && r.description == data.description && r.price == data.price
    ensures r.isActive == Some(true) <==> data.isActive != Some(false)
    ensures r.isActive.Some?
    ensures r.imageUrl.Some? <==> Truthy(data.imageUrl)
    ensures r.imageUrl.Some? ==> r.imageUrl == data.imageUrl
    ensures r.category.Some? <==> Truthy(data.category)
    ensures r.category.Some? ==> r.category == data.category
  {
    VendorItem(id, data.name, data.description, data.price, KeepTruthy(data.imageUrl), KeepTruthy(data.category),
               Some(match data.isActive case None => true case Some(b) => b), Some(vendorId))
  }

  /** `fetchVendorItems`, given the query's answer in creation order
      (`None` when it fails). */
  function FetchVendorItems(s: VendorItemsState, listing: Option<seq<VendorItem>>): (s': VendorItemsState)
    ensures !s'.isLoading
    ensures listing.Some? ==> s'.vendorItems == listing.value && s'.error.None?
    ensures listing.None? ==> s'.vendorItems == s.vendorItems && s'.error == Some(Storage)
  {
    match listing
    case Some(items) => s.(vendorItems := items, isLoading := false, error := None)
    case None => s.(error := Some(Storage), isLoading := false)
  }

  /** The outcome of `addItem`: the store, the `items` collection, and the
      returned id. */
  datatype Added = Added(state: VendorItemsState, remote: map<string, VendorItem>, result: Option<string>)

  /** `addItem`: `newId` is the id the collection generates, `ok` whether the
      write succeeds, and `listing` the answer of the refetch that follows
      it. A failing refetch records its error but the id is still returned. */
  function AddItem(s: VendorItemsState, user: Option<User>, data: NewItemData, remote: map<string, VendorItem>,
                   newId: string, ok: bool, listing: Option<seq<VendorItem>>): (r: Added)
    ensures SignedInUid(user).None? ==>
              r.result.None? && r.remote == remote && r.state == s.(error := Some(VendorNotAuthenticated))
    ensures r.result.Some? <==> SignedInUid(user).Some? && ok
    ensures SignedInUid(user).Some? ==> !r.state.isLoading
    ensures SignedInUid(user).Some? && !ok ==>
              r.remote == remote && r.state.error == Some(Storage) && r.state.vendorItems == s.vendorItems
    ensures r.result.Some? ==>
              r.result.value == newId
              && r.remote == remote[newId := NewRecord(newId, data, SignedInUid(user).value)]
              && r.state == FetchVendorItems(s, listing)
  {
    match SignedInUid(user)
    case None => Added(s.(error := Some(VendorNotAuthenticated)), remote, None)
    case Some(uid) =>
      if !ok then Added(s.(error := Some(Storage), isLoading := false), remote, None)
      else
        var remote' := remote[newId := NewRecord(newId, data, uid)];
        Added(FetchVendorItems(s.(isLoading := true), listing).(isLoading := false), remote', Some(newId))
  }

  /** The first listed item with that id. */
  function FindItem(items: seq<VendorItem>, id: string): (r: Option<VendorItem>)
    ensures r.Some? <==> exists i :: 0 <= i < |items| && items[i].id == id
    ensures r.Some? ==> r.value.id == id
    ensures r.Some? ==> exists i :: 0 <= i < |items| && items[i] == r.value && forall j :: 0 <= j < i ==> items[j].id != id
  {
    if |items| == 0 then None
    else if items[0].id == id then Some(items[0])
    else
      var r := FindItem(items[1..], id);
      assert r.Some? ==> exists i :: (1 <= i < |items| && items[i] == r.value
                                      && forall j :: 0 <= j < i ==> items[j].id != id) by {
        if r.Some? {
          var k :| 0 <= k < |items[1..]| && items[1..][k] == r.value && forall j :: 0 <= j < k ==> items[1..][j].id != id;
          assert items[k + 1] == r.value;
        }
      }
      assert (exists i :: 0 <= i < |items| && items[i].id == id) ==> exists i :: 0 <= i < |items[1..]| && items[1..][i].id == id by {
        if exists i :: 0 <= i < |items| && items[i].id == id {
          var i :| 0 <= i < |items| && items[i].id == id;
          assert items[1..][i - 1].id == id;
        }
      }
      r
  }

  /** The local list's record says `uid` owns item `id`. */
  predicate OwnedBy(items: seq<VendorItem>, id: string, uid: string) {
    var found := FindItem(items, id);
    found.Some? && found.value.vendorId == Some(uid)
  }

  /** The fields an edit may change; a missing field is left as it is. */
  datatype ItemPatch = ItemPatch(
    name: Option<string>,
    description: Option<string>,
    price: Option<int>,
    imageUrl: Option<string>,
    category: Option<string>,
    isActive: Option<bool>)

  function ApplyItemPatch(item: VendorItem, p: ItemPatch): (r: VendorItem)
    ensures r.id == item.id && r.vendorId == item.vendorId
    ensures r.name == p.name.GetOr(item.name) && r.price == p.price.GetOr(item.price)
    ensures r.description == p.description.GetOr(item.description)
    ensures r.imageUrl == (if p.imageUrl.Some? then p.imageUrl else item.imageUrl)
    ensures r.category == (if p.category.Some? then p.category else item.category)
    ensures r.isActive == (if p.isActive.Some? then p.isActive else item.isActive)
    ensures p == ItemPatch(None, None, None, None, None, None) ==> r == item
  {
    item.(name := p.name.GetOr(item.name),
          description := p.description.GetOr(item.description),
          price := p.price.GetOr(item.price),
          imageUrl := if p.imageUrl.Some? then p.imageUrl else item.imageUrl,
          category := if p.category.Some? then p.category else item.category,
          isActive := if p.isActive.Some? then p.isActive else item.isActive)
  }

  /** `updateItem`: the ownership check reads the local list; the remote
      update fails when the store does not answer or the document is
      missing; success refetches the list. */
  function UpdateItem(s: VendorItemsState, user: Option<User>, itemId: string, patch: ItemPatch,
                      remote: map<string, VendorItem>, ok: bool, listing: Option<seq<VendorItem>>)
    : (r: (VendorItemsState, map<string, VendorItem>))
    ensures SignedInUid(user).None? ==> r == (s.(error := Some(VendorNotAuthenticated)), remote)
    ensures SignedInUid(user).Some? && !OwnedBy(s.vendorItems, itemId, SignedInUid(user).value) ==>
              r.1 == remote && r.0 == s.(error := Some(NotOwned), isLoading := false)
    ensures r.1 != remote ==>
              SignedInUid(user).Some? && OwnedBy(s.vendorItems, itemId, SignedInUid(user).value)
              && ok && itemId in remote
    ensures SignedInUid(user).Some? && OwnedBy(s.vendorItems, itemId, SignedInUid(user).value)
            && !(ok && itemId in remote) ==>
              r == (s.(error := Some(Storage), isLoading := false), remote)
    ensures SignedInUid(user).Some? && OwnedBy(s.vendorItems, itemId, SignedInUid(user).value) && ok && itemId in remote ==>
              r.1 == remote[itemId := ApplyItemPatch(remote[itemId], patch)] && r.0 == FetchVendorItems(s, listing)
  {
    match SignedInUid(user)
    case None => (s.(error := Some(VendorNotAuthenticated)), remote)
    case Some(uid) =>
      if !OwnedBy(s.vendorItems, itemId, uid) then (s.(error := Some(NotOwned), isLoading := false), remote)
      else if !ok || itemId !in remote then (s.(error := Some(Storage), isLoading := false), remote)
      else (FetchVendorItems(s.(isLoading := true), listing).(isLoading := false),
            remote[itemId := ApplyItemPatch(remote[itemId], patch)])
  }

  /** An item listed under another vendor's id is never written, whatever
      the store would answer. */
  lemma OtherVendorsItemUntouched(s: VendorItemsState, user: User, itemId: string, patch: ItemPatch,
                                  remote: map<string, VendorItem>, ok: bool, listing: Option<seq<VendorItem>>, i: nat)
    requires i < |s.vendorItems| && s.vendorItems[i].id == itemId && s.vendorItems[i].vendorId != Some(user.uid)
    requires forall j :: 0 <= j < i ==> s.vendorItems[j].id != itemId
    ensures UpdateItem(s, Some(user), itemId, patch, remote, ok, listing).1 == remote
  {
    var found := FindItem(s.vendorItems, itemId);
    var k :| 0 <= k < |s.vendorItems| && s.vendorItems[k] == found.value
      && forall j :: 0 <= j < k ==> s.vendorItems[j].id != itemId;
    assert k <= i;
    assert k == i;
  }

  /** Every item with that id gets the given active flag; the others are kept. */
  function SetActive(items: seq<VendorItem>, id: string, active: bool): (r: seq<VendorItem>)
    ensures |r| == |items|
    ensures forall i :: 0 <= i < |r| ==> r[i] == (if items[i].id == id then items[i].(isActive := Some(active)) else items[i])
  {
    if |items| == 0 then []
    else
      var head := if items[0].id == id then items[0].(isActive := Some(active)) else items[0];
      [head] + SetActive(items[1..], id, active)
  }

  /** The two moments of `toggleItemActiveStatus`: the optimistic state set
      before the write, and the final state with the remote collection. */
  datatype Toggle = Toggle(optimistic: VendorItemsState, final: VendorItemsState, remote: map<string, VendorItem>)

  /** `toggleItemActiveStatus(itemId, isActive)`: the flag is applied at
      once; if the remote update fails (store not answering or document
      missing) every matching item is set to `!isActive` and the error is
      recorded. On success the previous error is left in place. */
  function ToggleItemActiveStatus(s: VendorItemsState, itemId: string, isActive: bool,
                                  remote: map<string, VendorItem>, ok: bool): (r: Toggle)
    ensures r.optimistic == s.(vendorItems := SetActive(s.vendorItems, itemId, isActive), isLoading := true)
    ensures !r.final.isLoading
    ensures ok && itemId in remote ==>
              r.final.vendorItems == r.optimistic.vendorItems && r.final.error == s.error
              && r.remote == remote[itemId := remote[itemId].(isActive := Some(isActive))]
    ensures !(ok && itemId in remote) ==>
              r.final.vendorItems == SetActive(s.vendorItems, itemId, !isActive)
              && r.final.error == Some(Storage) && r.remote == remote
  {
    var optimistic := s.(vendorItems := SetActive(s.vendorItems, itemId, isActive), isLoading := true);
    if ok && itemId in remote then
      Toggle(optimistic, optimistic.(isLoading := false), remote[itemId := remote[itemId].(isActive := Some(isActive))])
    else
      Toggle(optimistic,
             optimistic.(vendorItems := SetActive(optimistic.vendorItems, itemId, !isActive), error := Some(Storage), isLoading := false),
             remote)
  }

  /** The rollback restores the list when the caller asked for the opposite
      of every matching item's current flag, as the item screen does. */
  lemma RollbackRestoresWhenFlipped(s: VendorItemsState, itemId: string, isActive: bool, remote: map<string, VendorItem>)
    requires forall i :: 0 <= i < |s.vendorItems| && s.vendorItems[i].id == itemId ==> s.vendorItems[i].isActive == Some(!isActive)
    ensures ToggleItemActiveStatus(s, itemId, isActive, remote, false).final.vendorItems == s.vendorItems
  {
    var r := ToggleItemActiveStatus(s, itemId, isActive, remote, false);
    assert forall i :: 0 <= i < |s.vendorItems| ==> r.final.vendorItems[i] == s.vendorItems[i];
  }

  /** The rollback writes `!isActive`, not the prior value: a failed request
      to set an already active item active leaves it inactive. */
  lemma RollbackIsNotUndo(item: VendorItem, remote: map<string, VendorItem>)
    requires item.isActive == Some(true)
    ensures var r := ToggleItemActiveStatus(VendorItemsState([item], false, None), item.id, true, remote, false);
            r.final.vendorItems == [item.(isActive := Some(false))] && r.final.vendorItems != [item]
  {
    var r := ToggleItemActiveStatus(VendorItemsState([item], false, None), item.id, true, remote, false);
    assert r.final.vendorItems[0].isActive == Some(false);
  }

  /** The auth-store subscription: a new vendor session fetches the list
      only when it is empty; losing the role or signing out clears it. */
  function VendorItemsOnAuthChange(s: VendorItemsState, prev: AuthState, cur: AuthState,
                                   listing: Option<seq<VendorItem>>): (s': VendorItemsState)
    ensures VendorRoleChange(prev, cur) == BecameVendor && |s.vendorItems| == 0 ==> s' == FetchVendorItems(s, listing)
    ensures VendorRoleChange(prev, cur) == BecameVendor && |s.vendorItems| > 0 ==> s' == s
    ensures VendorRoleChange(prev, cur) == LeftVendor ==> s' == InitialVendorItems
    ensures VendorRoleChange(prev, cur) == NoRoleChange ==> s' == s
  {
    match VendorRoleChange(prev, cur)
    case BecameVendor => if |s.vendorItems| == 0 then FetchVendorItems(s, listing) else s
    case LeftVendor => InitialVendorItems
    case NoRoleChange => s
  }

  /** A vendor who signs out leaves no items behind in this store. */
  lemma SignOutClearsVendorItems(s: VendorItemsState, auth: AuthState, listing: Option<seq<VendorItem>>)
    requires auth.user.Some? && auth.isVendor
    ensures VendorItemsOnAuthChange(s, auth, SignOut(auth, true), listing).vendorItems == []
  {
    SignOutEndsVendorSession(auth);
  }
}
