/** The home screen's derivations: the category chips, the category
    filter, the recent order, and the two-row columns of the popular herbs
    section. */
module Home {
  import opened Common
  import opened Catalog
  import opened Orders

  /** The item has a category that counts (present and non-empty). */
  predicate HasCategory(x: Item, c: string) {
    x.category == Some(c) && c != ""
  }

  /** `categories`: the non-empty categories of the items, each once, in
      order of first occurrence (the insertion order of a JavaScript `Set`):
      a later item adds its category at the end unless already present. */
  function Categories(items: seq<Item>): (r: seq<string>)
    ensures forall i, j :: 0 <= i < j < |r| ==> r[i] != r[j]
    ensures forall c :: c in r <==> exists i :: 0 <= i < |items| && HasCategory(items[i], c)
    decreases |items|
  {
    if |items| == 0 then []
    else
      var init := items[..|items| - 1];
      var prev := Categories(init);
      var last := items[|items| - 1];
      assert forall i :: 0 <= i < |init| ==> init[i] == items[i];
      if Truthy(last.category) && last.category.value !in prev then prev + [last.category.value] else prev
  }

  /** Adding items never reorders the chips already shown: the categories of
      a prefix are a prefix of the categories. */
  lemma {:induction false} CategoriesOfPrefix(items: seq<Item>, k: nat)
    requires k <= |items|
    ensures Categories(items[..k]) <= Categories(items)
    decreases |items|
  {
    if k < |items| {
      var init := items[..|items| - 1];
      assert items[..k] == init[..k];
      CategoriesOfPrefix(init, k);
    } else {
      assert items[..k] == items;
    }
  }

  /** The categories computed as the screen does: one pass, remembering the
      categories seen so far. */
  method CategoryList(items: seq<Item>) returns (r: seq<string>)
    ensures r == Categories(items)
  {
    r := [];
    var seen: set<string> := {};
    var i := 0;
    while i < |items|
      invariant 0 <= i <= |items|
      invariant r == Categories(items[..i])
      invariant seen == set c | c in r
    {
      assert items[..i + 1][..i] == items[..i];
      var c := items[i].category;
      if c.Some? && c.value != "" && c.value !in seen {
        r := r + [c.value];
        seen := seen + {c.value};
      }
      i := i + 1;
    }
    assert items[..i] == items;
  }

  /** `filteredPopularHerbs`: all items when no category is selected (null
      or empty), else the items of that category in their order. */
  function FilteredHerbs(items: seq<Item>, selected: Option<string>): (r: seq<Item>)
    ensures !Truthy(selected) ==> r == items
    ensures |r| <= |items|
    ensures Truthy(selected) ==> forall x :: x in r <==> x in items && x.category == selected
  {
    if !Truthy(selected) then items
    else if |items| == 0 then []
    else
      var rest := FilteredHerbs(items[1..], selected);
      assert forall x :: x in items <==> x == items[0] || x in items[1..];
      if items[0].category == selected then [items[0]] + rest else rest
  }

  /** The category filter distributes over concatenation, so the shown items
      keep their relative order. */
  lemma {:induction false} FilteredHerbsAppend(a: seq<Item>, b: seq<Item>, selected: Option<string>)
    ensures FilteredHerbs(a + b, selected) == FilteredHerbs(a, selected) + FilteredHerbs(b, selected)
  {
    if Truthy(selected) {
      if |a| == 0 {
        assert a + b == b;
      } else {
        assert (a + b)[1..] == a[1..] + b;
        FilteredHerbsAppend(a[1..], b, selected);
      }
    }
  }

  /** Selecting a chip never shows an empty list. */
  lemma ChipsAreNonEmpty(items: seq<Item>, c: string)
    requires c in Categories(items)
    ensures |FilteredHerbs(items, Some(c))| > 0
  {
    var i :| 0 <= i < |items| && HasCategory(items[i], c);
    assert items[i] in FilteredHerbs(items, Some(c));
  }

  /** The chip press rule: pressing the selected category clears the
      selection, pressing another selects it. */
  function NextSelection(selected: Option<string>, pressed: string): (r: Option<string>)
    ensures selected == Some(pressed) ==> r.None?
    ensures selected != Some(pressed) ==> r == Some(pressed)
  {
    if selected == Some(pressed) then None else Some(pressed)
  }

  /** Pressing a chip twice from no selection, or pressing the selected chip,
      brings back the unfiltered list. */
  lemma PressTwiceClears(items: seq<Item>, c: string)
    ensures NextSelection(NextSelection(None, c), c).None?
    ensures FilteredHerbs(items, NextSelection(Some(c), c)) == items
  {
  }

  /** `recentOrder`: the first order of the list. */
  function RecentOrder(orders: seq<Order>): (r: Option<Order>)
    ensures r.Some? <==> |orders| > 0
    ensures r.Some? ==> r.value in orders
  {
    if |orders| > 0 then Some(orders[0]) else None
  }

  /** The orders listener sorts newest first; on such a list the recent
      order is one of the newest. */
  lemma RecentIsNewest(orders: seq<Order>)
    requires forall i, j :: 0 <= i < j < |orders| ==> orders[i].createdAt >= orders[j].createdAt
    ensures RecentOrder(orders).Some? ==> forall o :: o in orders ==> o.createdAt <= RecentOrder(orders).value.createdAt
  {
    forall o | o in orders
      ensures o.createdAt <= orders[0].createdAt
    {
      var k :| 0 <= k < |orders| && orders[k] == o;
      if k > 0 {
        assert orders[0].createdAt >= orders[k].createdAt;
      }
    }
  }

  /** The pairs laid end to end. */
  function Flatten(pairs: seq<seq<Item>>): seq<Item> {
    if |pairs| == 0 then [] else Flatten(pairs[..|pairs| - 1]) + pairs[|pairs| - 1]
  }

  /** `pairedData`: the items two by two, the last pair alone when the count
      is odd; a missing list gives no pairs. */
  method PairUp(filtered: Option<seq<Item>>) returns (pairs: seq<seq<Item>>)
    ensures filtered.None? ==> pairs == []
    ensures filtered.Some? ==> Flatten(pairs) == filtered.value
    ensures filtered.Some? ==> |pairs| == (|filtered.value| + 1) / 2
    ensures forall k :: 0 <= k < |pairs| ==> 1 <= |pairs[k]| <= 2
    ensures forall k :: 0 <= k < |pairs| - 1 ==> |pairs[k]| == 2
  {
    pairs := [];
    if filtered.None? {
      return;
    }
    var items := filtered.value;
    var n := |items|;
    var i := 0;
    while i < n
      invariant 0 <= i <= n + 1 && i % 2 == 0
      invariant |pairs| == i / 2
      invariant Flatten(pairs) == items[..if i <= n then i else n]
      invariant forall k :: 0 <= k < |pairs| ==> 1 <= |pairs[k]| <= 2
      invariant forall k :: 0 <= k < |pairs| ==> |pairs[k]| == 2 || (k == |pairs| - 1 && i == n + 1)
    {
      var pair := [items[i]];
      if i + 1 < n {
        pair := pair + [items[i + 1]];
      }
      assert (pairs + [pair])[..|pairs|] == pairs;
      pairs := pairs + [pair];
      i := i + 2;
    }
    assert items[..n] == items;
  }
}
