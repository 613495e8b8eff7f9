/** The product catalogue of the items store: the `Item` record, the listing
    that keeps only active items, and lookup by id. */
module Catalog {
  import opened Common

  /** A catalogue item; `price` is in integer cents. */
  datatype Item = Item(
    id: string,
    name: string,
    description: string,
    price: int,
    imageUrl: Option<string>,
    category: Option<string>,
    isActive: bool)

  /** An item document as stored remotely, where `isActive` may be missing
      (documents written before the field existed). */
  datatype ItemDoc = ItemDoc(
    id: string,
    name: string,
    description: string,
    price: int,
    imageUrl: Option<string>,
    category: Option<string>,
    isActive: Option<bool>)

  /** Reads a document as an item; a missing `isActive` counts as active. */
  function FromDoc(d: ItemDoc): (it: Item)
    ensures it.isActive <==> d.isActive != Some(false)
    ensures it.id == d.id && it.name == d.name && it.description == d.description
    ensures it.price == d.price && it.imageUrl == d.imageUrl && it.category == d.category
  {
    Item(d.id, d.name, d.description, d.price, d.imageUrl, d.category, d.isActive.GetOr(true))
  }

  /** The listing the store keeps after a fetch: the documents read as items,
      inactive ones dropped, in query order. */
  function ActiveItems(docs: seq<ItemDoc>): (r: seq<Item>)
    ensures |r| <= |docs|
    ensures forall i :: 0 <= i < |r| ==> r[i].isActive
    ensures forall d :: d in docs && d.isActive != Some(false) ==> FromDoc(d) in r
    ensures forall x :: x in r ==> exists d :: d in docs && FromDoc(d) == x
  {
    if |docs| == 0 then []
    else
      var rest := ActiveItems(docs[1..]);
      assert forall d :: d in docs[1..] ==> d in docs;
      if FromDoc(docs[0]).isActive then [FromDoc(docs[0])] + rest else rest
  }

  /** The listing keeps query order: it distributes over concatenation. */
  lemma {:induction false} ActiveItemsAppend(a: seq<ItemDoc>, b: seq<ItemDoc>)
    ensures ActiveItems(a + b) == ActiveItems(a) + ActiveItems(b)
  {
    if |a| > 0 {
      assert (a + b)[1..] == a[1..] + b;
      ActiveItemsAppend(a[1..], b);
    } else {
      assert a + b == b;
    }
  }

  datatype ItemsState = ItemsState(items: seq<Item>, isLoading: bool, error: Option<Error>)

  const InitialItems := ItemsState([], false, None)

  /** `fetchItems`: `result` is what the query returned, `None` when it threw.
      A successful fetch replaces the list by the active items; a failed one
      records the error and keeps the old list. */
  function FetchItems(s: ItemsState, result: Option<seq<ItemDoc>>): (s': ItemsState)
    ensures !s'.isLoading
    ensures result.Some? ==> s'.error == None && s'.items == ActiveItems(result.value)
    ensures result.None? ==> s'.error == Some(Storage) && s'.items == s.items
  {
    match result
    case Some(docs) => ItemsState(ActiveItems(docs), false, None)
    case None => s.(isLoading := false, error := Some(Storage))
  }

  /** `getItemById`: the first item with that id which is also active. */
  function GetItemById(items: seq<Item>, id: string): (r: Option<Item>)
    ensures r.Some? <==> exists i :: 0 <= i < |items| && items[i].id == id && items[i].isActive
    ensures r.Some? ==> r.value.id == id && r.value.isActive
    ensures r.Some? ==>
              exists i :: (0 <= i < |items| && items[i] == r.value
                           && forall j :: 0 <= j < i ==> !(items[j].id == id && items[j].isActive))
  {
    if |items| == 0 then None
    else if items[0].id == id && items[0].isActive then Some(items[0])
    else
      var r := GetItemById(items[1..], id);
      assert forall i :: 1 <= i < |items| ==> items[i] == items[1..][i - 1];
      if r.Some? then
        ghost var k :| 0 <= k < |items| - 1 && items[1..][k] == r.value && r.value.id == id && r.value.isActive
          && forall j :: 0 <= j < k ==> !(items[1..][j].id == id && items[1..][j].isActive);
        assert items[k + 1] == r.value;
        r
      else
        r
  }

  /** Every item a fetch keeps can be looked up by its id (the first active
      item with a given id is the one found). */
  lemma FetchedItemsAreFound(docs: seq<ItemDoc>, d: ItemDoc)
    requires d in docs && d.isActive != Some(false)
    ensures GetItemById(ActiveItems(docs), d.id).Some?
  {
    var items := ActiveItems(docs);
    var i :| 0 <= i < |items| && items[i] == FromDoc(d);
  }
}
