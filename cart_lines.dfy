/** The cart as a list of (id, quantity) lines and what the pages compute
    from it: adding an item, changing or removing a line, the item count,
    the subtotal, tax, delivery fee and totals, and the order lines a
    checkout copies out of it. */
module CartLines {
  import opened Common
  import opened Catalog
  import opened Records
  import opened Sequences

  predicate HasId(cart: seq<CartLine>, id: int)
  {
    exists i :: 0 <= i < |cart| && cart[i].id == id
  }

  /** The cart is keyed by id: no two lines share one. */
  predicate UniqueIds(cart: seq<CartLine>)
  {
    forall i, j :: 0 <= i < j < |cart| ==> cart[i].id != cart[j].id
  }

  /** The cart a page starts from: the stored list, or an empty cart when
      the key is missing or does not parse. */
  function Loaded(slot: Slot<seq<CartLine>>): (cart: seq<CartLine>)
    ensures slot.Holds? ==> cart == slot.value
    ensures !slot.Holds? ==> cart == []
  {
    if slot.Holds? then slot.value else []
  }

  // ---- adding an item (menu component) ----

  /** Every line with id `id` gets one more; the others are kept. */
  function Bumped(cart: seq<CartLine>, id: int): (r: seq<CartLine>)
    ensures |r| == |cart|
    ensures forall i :: 0 <= i < |cart| ==> r[i].id == cart[i].id
    ensures forall i :: 0 <= i < |cart| && cart[i].id != id ==> r[i] == cart[i]
    ensures forall i :: 0 <= i < |cart| && cart[i].id == id ==> r[i].quantity == cart[i].quantity + 1
  {
    if cart == [] then []
    else
      var head := if cart[0].id == id then cart[0].(quantity := cart[0].quantity + 1) else cart[0];
      [head] + Bumped(cart[1..], id)
  }

  /** The cart after "Add to Order" on item `id`. */
  function Added(cart: seq<CartLine>, id: int): (r: seq<CartLine>)
    ensures HasId(r, id)
    ensures |r| == if HasId(cart, id) then |cart| else |cart| + 1
    ensures forall i :: 0 <= i < |cart| ==> r[i].id == cart[i].id
    ensures forall i :: 0 <= i < |cart| && cart[i].id != id ==> r[i] == cart[i]
    ensures forall i :: 0 <= i < |cart| && cart[i].id == id ==> r[i].quantity == cart[i].quantity + 1
    ensures !HasId(cart, id) ==> r[|cart|] == CartLine(id, 1)
  {
    if HasId(cart, id) then Bumped(cart, id)
    else
      var r := cart + [CartLine(id, 1)];
      assert r[|cart|].id == id;
      r
  }

  /** Adding keeps the cart keyed by id. */
  lemma AddedKeepsUnique(cart: seq<CartLine>, id: int)
    requires UniqueIds(cart)
    ensures UniqueIds(Added(cart, id))
  {
  }

  /** Total number of items in the cart (the badge count). Lines never
      hold less than one, so the badge is at least the number of lines. */
  function Count(cart: seq<CartLine>): (c: int)
    ensures (forall i :: 0 <= i < |cart| ==> cart[i].quantity >= 1) ==> c >= |cart|
  {
    if cart == [] then 0 else cart[0].quantity + Count(cart[1..])
  }

  lemma {:induction false} CountAppend(a: seq<CartLine>, b: seq<CartLine>)
    ensures Count(a + b) == Count(a) + Count(b)
  {
    if a != [] {
      assert (a + b)[0] == a[0];
      assert (a + b)[1..] == a[1..] + b;
      CountAppend(a[1..], b);
    } else {
      assert a + b == b;
    }
  }

  lemma {:induction false} BumpedCount(cart: seq<CartLine>, id: int)
    requires UniqueIds(cart)
    ensures Count(Bumped(cart, id)) == Count(cart) + (if HasId(cart, id) then 1 else 0)
  {
    if cart != [] {
      assert UniqueIds(cart[1..]);
      BumpedCount(cart[1..], id);
      if cart[0].id == id {
        assert !HasId(cart[1..], id);
      } else {
        assert HasId(cart, id) == HasId(cart[1..], id) by {
          if HasId(cart, id) {
            var i :| 0 <= i < |cart| && cart[i].id == id;
            assert cart[1..][i - 1].id == id;
          }
          if HasId(cart[1..], id) {
            var i :| 0 <= i < |cart| - 1 && cart[1..][i].id == id;
            assert cart[i + 1].id == id;
          }
        }
      }
    }
  }

  /** Each add raises the item count by exactly one. */
  lemma AddedCount(cart: seq<CartLine>, id: int)
    requires UniqueIds(cart)
    ensures Count(Added(cart, id)) == Count(cart) + 1
  {
    if HasId(cart, id) {
      BumpedCount(cart, id);
    } else {
      CountAppend(cart, [CartLine(id, 1)]);
      assert Count([CartLine(id, 1)]) == 1;
    }
  }

  /** Adding the same item twice to an empty cart gives one line of two. */
  lemma AddedTwice(id: int)
    ensures Added(Added([], id), id) == [CartLine(id, 2)]
  {
    var once := Added([], id);
    assert once == [CartLine(id, 1)];
    assert HasId(once, id);
  }

  // ---- changing and removing lines (cart page) ----

  /** Every line with id `id` gets quantity `q`; the others are kept. */
  function Requantified(cart: seq<CartLine>, id: int, q: int): (r: seq<CartLine>)
    ensures |r| == |cart|
    ensures forall i :: 0 <= i < |cart| ==> r[i].id == cart[i].id
    ensures forall i :: 0 <= i < |cart| && cart[i].id != id ==> r[i] == cart[i]
    ensures forall i :: 0 <= i < |cart| && cart[i].id == id ==> r[i].quantity == q
  {
    if cart == [] then []
    else
      var head := if cart[0].id == id then cart[0].(quantity := q) else cart[0];
      [head] + Requantified(cart[1..], id, q)
  }

  /** Setting the quantity of an id that is not in the cart changes
      nothing: no line is inserted. */
  lemma RequantifiedAbsent(cart: seq<CartLine>, id: int, q: int)
    requires !HasId(cart, id)
    ensures Requantified(cart, id, q) == cart
  {
    var r := Requantified(cart, id, q);
    assert forall i :: 0 <= i < |cart| ==> r[i] == cart[i];
  }

  /** The cart without the lines for `id`, in the original order. */
  function Without(cart: seq<CartLine>, id: int): (r: seq<CartLine>)
    ensures !HasId(r, id)
    ensures forall l :: l in r <==> l in cart && l.id != id
    ensures forall l :: multiset(r)[l] == if l.id != id then multiset(cart)[l] else 0
    ensures IsSubsequence(r, cart)
  {
    if cart == [] then []
    else
      assert cart == [cart[0]] + cart[1..];
      if cart[0].id == id then Without(cart[1..], id)
      else [cart[0]] + Without(cart[1..], id)
  }

  /** Removing an id that is not in the cart changes nothing. */
  lemma {:induction false} WithoutAbsent(cart: seq<CartLine>, id: int)
    requires !HasId(cart, id)
    ensures Without(cart, id) == cart
  {
    if cart != [] {
      assert !HasId(cart[1..], id);
      WithoutAbsent(cart[1..], id);
      assert cart[0].id != id;
    }
  }

  /** Removing twice is the same as removing once. */
  lemma WithoutIdempotent(cart: seq<CartLine>, id: int)
    ensures Without(Without(cart, id), id) == Without(cart, id)
  {
    WithoutAbsent(Without(cart, id), id);
  }

  lemma {:induction false} WithoutKeepsUnique(cart: seq<CartLine>, id: int)
    requires UniqueIds(cart)
    ensures UniqueIds(Without(cart, id))
  {
    if cart != [] {
      assert UniqueIds(cart[1..]);
      WithoutKeepsUnique(cart[1..], id);
      var rest := Without(cart[1..], id);
      if cart[0].id != id {
        forall l | l in rest
          ensures l.id != cart[0].id
        {
          HeadIdNotInTail(cart, l);
        }
        PrependKeepsUnique(cart[0], rest);
      }
    }
  }

  /** In a cart keyed by id, no later line shares the first line's id. */
  lemma HeadIdNotInTail(cart: seq<CartLine>, l: CartLine)
    requires UniqueIds(cart) && cart != [] && l in cart[1..]
    ensures l.id != cart[0].id
  {
    var k :| 0 <= k < |cart| - 1 && cart[1..][k] == l;
    assert cart[k + 1] == l;
  }

  lemma PrependKeepsUnique(head: CartLine, rest: seq<CartLine>)
    requires UniqueIds(rest)
    requires forall l :: l in rest ==> l.id != head.id
    ensures UniqueIds([head] + rest)
  {
    var r := [head] + rest;
    forall i, j | 0 <= i < j < |r|
      ensures r[i].id != r[j].id
    {
      if i == 0 {
        assert r[j] == rest[j - 1] && rest[j - 1] in rest;
      } else {
        assert r[i] == rest[i - 1] && r[j] == rest[j - 1];
      }
    }
  }

  /** Setting a quantity keeps the cart keyed by id. */
  lemma RequantifiedKeepsUnique(cart: seq<CartLine>, id: int, q: int)
    requires UniqueIds(cart)
    ensures UniqueIds(Requantified(cart, id, q))
  {
  }

  // ---- money ----

  /** Price times quantity. */
  function Amount(price: real, quantity: int): real
  {
    price * quantity as real
  }

  /** What one line contributes: catalog price times quantity, nothing for
      an id the catalog does not have. */
  function LineAmount(line: CartLine): real
  {
    match Find(line.id)
    case Some(item) => Amount(item.price, line.quantity)
    case None => 0.0
  }

  /** Sum of the line amounts, in dollars; with no negative quantity it is
      not negative. */
  function Subtotal(cart: seq<CartLine>): (r: real)
    ensures (forall i :: 0 <= i < |cart| ==> cart[i].quantity >= 0) ==> r >= 0.0
  {
    if cart == [] then 0.0
    else
      LineAmountNonNegative(cart[0]);
      LineAmount(cart[0]) + Subtotal(cart[1..])
  }

  lemma {:induction false} SubtotalAppend(a: seq<CartLine>, b: seq<CartLine>)
    ensures Subtotal(a + b) == Subtotal(a) + Subtotal(b)
  {
    if a != [] {
      assert (a + b)[0] == a[0];
      assert (a + b)[1..] == a[1..] + b;
      SubtotalAppend(a[1..], b);
    } else {
      assert a + b == b;
    }
  }

  /** Lines with an id outside the catalog add nothing to the subtotal. */
  lemma {:induction false} SubtotalIgnoresUnknown(cart: seq<CartLine>, id: int)
    requires Find(id).None?
    ensures Subtotal(Without(cart, id)) == Subtotal(cart)
  {
    if cart != [] {
      SubtotalIgnoresUnknown(cart[1..], id);
    }
  }

  lemma LineAmountNonNegative(line: CartLine)
    ensures line.quantity >= 0 ==> LineAmount(line) >= 0.0
  {
    var found := Find(line.id);
    if line.quantity >= 0 && found.Some? {
      PricesPositive();
      assert found.value in Items;
      NonNegativeProduct(found.value.price, line.quantity as real);
    }
  }

  lemma NonNegativeProduct(x: real, y: real)
    requires x >= 0.0 && y >= 0.0
    ensures x * y >= 0.0
  {
  }

  const TaxRate: real := 0.08

  /** Tax at 8% of the subtotal: never more than the subtotal, and the
      subtotal with tax is the subtotal times 1.08. */
  function Tax(subtotal: real): (t: real)
    ensures subtotal >= 0.0 ==> 0.0 <= t <= subtotal
    ensures subtotal + t == subtotal * 1.08
  {
    subtotal * TaxRate
  }

  /** The flat delivery fee, whatever the order. */
  const DeliveryFee: real := 2.99

  /** Grand total as the checkout page adds it up. */
  function CheckoutTotal(subtotal: real): (t: real)
    ensures t - subtotal - Tax(subtotal) == 2.99
  {
    subtotal + Tax(subtotal) + DeliveryFee
  }

  /** Grand total as the cart page displays it, subtotal times 1.08 plus
      the fee: the same amount the checkout page adds up. */
  function CartDisplayTotal(subtotal: real): (t: real)
    ensures t == subtotal + Tax(subtotal) + DeliveryFee
    ensures t == CheckoutTotal(subtotal)
  {
    subtotal * 1.08 + 2.99
  }

  /** The worked example: two Masala Chai and one Hyderabadi Biryani. */
  lemma ExampleTotals()
    ensures Subtotal([CartLine(1, 2), CartLine(3, 1)]) == 21.97
    ensures Tax(21.97) == 1.7576
    ensures CheckoutTotal(21.97) == 26.7176
  {
    var chai, biryani := CartLine(1, 2), CartLine(3, 1);
    ExampleLines();
    assert [chai, biryani][1..] == [biryani] && [biryani][1..] == [];
    assert Subtotal([biryani]) == 14.99;
  }

  lemma ExampleLines()
    ensures LineAmount(CartLine(1, 2)) == 6.98 && LineAmount(CartLine(3, 1)) == 14.99
  {
    assert Find(1) == Some(Items[0]);
    assert Find(3) == Some(Items[2]) by {
      assert Items[1..][1..] == Items[2..];
    }
  }

  // ---- order lines (checkout page) ----

  /** The order lines copied out of the cart: same length and order, each
      with the cart's quantity and the catalog's name and price, or "" and
      0 when the catalog has no such id. */
  function OrderItems(cart: seq<CartLine>): (items: seq<OrderItem>)
    ensures |items| == |cart|
    ensures forall i :: 0 <= i < |cart| ==>
      items[i].id == cart[i].id && items[i].quantity == cart[i].quantity
    ensures forall i :: 0 <= i < |cart| && Find(cart[i].id).Some? ==>
      items[i].name == Find(cart[i].id).value.name && items[i].price == Find(cart[i].id).value.price
    ensures forall i :: 0 <= i < |cart| && Find(cart[i].id).None? ==>
      items[i].name == "" && items[i].price == 0.0
  {
    if cart == [] then [] else [ItemOf(cart[0])] + OrderItems(cart[1..])
  }

  /** The order line copied from one cart line. */
  function ItemOf(line: CartLine): OrderItem
  {
    match Find(line.id)
    case Some(m) => OrderItem(line.id, m.name, m.price, line.quantity)
    case None => OrderItem(line.id, "", 0.0, line.quantity)
  }

  lemma ItemOfAmount(line: CartLine)
    ensures Amount(ItemOf(line).price, ItemOf(line).quantity) == LineAmount(line)
  {
  }

  /** Sum of price times quantity over order lines. */
  function ItemsTotal(items: seq<OrderItem>): real
  {
    if items == [] then 0.0 else Amount(items[0].price, items[0].quantity) + ItemsTotal(items[1..])
  }

  /** The copied order lines add up to the cart's subtotal. */
  lemma {:induction false} OrderItemsTotal(cart: seq<CartLine>)
    ensures ItemsTotal(OrderItems(cart)) == Subtotal(cart)
  {
    if cart != [] {
      OrderItemsTotal(cart[1..]);
      ItemOfAmount(cart[0]);
      var items := OrderItems(cart);
      assert items[0] == ItemOf(cart[0]);
      assert items[1..] == OrderItems(cart[1..]);
    }
  }
}
