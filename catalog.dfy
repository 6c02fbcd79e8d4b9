/** The restaurant's static menu: six items, each offered in some of the
    four menu windows of the day. The same list appears in the menu
    component, the cart page and the checkout page; it is defined once
    here. Descriptions and image paths are display-only and left out. */
module Catalog {
  import opened Common

  /** The four menu windows, in the order the time resolver tries them. */
  datatype Window = Breakfast | Lunch | Snacks | Dinner

  /** A catalog entry; `price` is in dollars, held exactly. */
  datatype MenuItem = MenuItem(
    id: int,
    name: string,
    price: real,
    category: string,
    availableTime: seq<Window>)

  const Items: seq<MenuItem> := [
    MenuItem(1, "Masala Chai", 3.49, "Beverages", [Breakfast, Lunch, Dinner]),
    MenuItem(2, "Osmania Biscuits", 4.99, "Snacks", [Breakfast, Snacks]),
    MenuItem(3, "Hyderabadi Biryani", 14.99, "Main Course", [Lunch, Dinner]),
    MenuItem(4, "Bun Maska", 5.99, "Snacks", [Breakfast, Snacks]),
    MenuItem(5, "Vada Pav", 6.99, "Street Food", [Lunch, Dinner]),
    MenuItem(6, "Chicken 65", 12.99, "Appetizers", [Lunch, Dinner])
  ]

  /** The first entry of `items` whose id is `id`, as `find` returns it. */
  function FindIn(items: seq<MenuItem>, id: int): (r: Option<MenuItem>)
    ensures r.Some? ==> r.value in items && r.value.id == id
    ensures r.None? <==> forall k :: 0 <= k < |items| ==> items[k].id != id
    ensures r.Some? ==> exists k :: 0 <= k < |items| && items[k] == r.value &&
                          forall j :: 0 <= j < k ==> items[j].id != id
  {
    if items == [] then None
    else if items[0].id == id then Some(items[0])
    else
      var r := FindIn(items[1..], id);
      assert forall k :: 1 <= k < |items| ==> items[k] == items[1..][k - 1];
      r
  }

  /** Catalog lookup by id. */
  function Find(id: int): Option<MenuItem>
  {
    FindIn(Items, id)
  }

  /** Every catalog price is positive. */
  lemma PricesPositive()
    ensures forall it :: it in Items ==> it.price > 0.0
  {
  }

  /** The catalog is keyed by id, every price is positive, and exactly the
      ids 1 to 6 resolve. */
  lemma CatalogWellFormed()
    ensures forall i, j :: 0 <= i < j < |Items| ==> Items[i].id != Items[j].id
    ensures forall it :: it in Items ==> it.price > 0.0
    ensures forall id :: Find(id).Some? <==> 1 <= id <= 6
    ensures forall id :: 1 <= id <= 6 ==> Find(id).Some? && Find(id).value == Items[id - 1]
  {
    IdsArePositions();
    PricesPositive();
    forall id | 1 <= id <= 6
      ensures Find(id).Some? && Find(id).value == Items[id - 1]
    {
      FindById(id);
    }
    forall id | Find(id).Some?
      ensures 1 <= id <= 6
    {
      var k :| 0 <= k < |Items| && Items[k] == Find(id).value;
    }
  }

  /** Entry `k` of the catalog has id `k + 1`. */
  lemma IdsArePositions()
    ensures forall k :: 0 <= k < |Items| ==> Items[k].id == k + 1
  {
  }

  lemma FindById(id: int)
    requires 1 <= id <= 6
    ensures Find(id).Some? && Find(id).value == Items[id - 1]
  {
    IdsArePositions();
    assert Items[id - 1].id == id;
  }
}
