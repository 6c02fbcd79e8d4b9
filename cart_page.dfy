/** The cart page: its copy of the cart, quantity buttons, removal, the
    totals it shows and the checkout button. Every change of the cart is
    written back to storage. */
module Cart {
  import opened Common
  import opened Records
  import opened CartLines

  class CartPage {
    var cart: seq<CartLine>
    const store: LocalStorage

    /** Mounting: the stored cart, or an empty one when the key is missing
        or does not parse; the page then writes its cart back. */
    constructor(store: LocalStorage)
      modifies store`cart
      ensures this.store == store
      ensures cart == Loaded(old(store.cart))
      ensures store.cart == Holds(cart)
    {
      this.store := store;
      var loaded := Loaded(store.cart);
      cart := loaded;
      store.cart := Holds(loaded);
    }

    /** Drops every line for `id`. */
    method RemoveFromCart(id: int)
      modifies this`cart, store`cart
      ensures cart == Without(old(cart), id)
      ensures store.cart == Holds(cart)
      ensures UniqueIds(old(cart)) ==> UniqueIds(cart)
    {
      if UniqueIds(cart) {
        WithoutKeepsUnique(cart, id);
      }
      cart := Without(cart, id);
      store.cart := Holds(cart);
    }

    /** The minus and plus buttons: a quantity below one removes the line,
        any other overwrites it. */
    method UpdateQuantity(id: int, quantity: int)
      modifies this`cart, store`cart
      ensures quantity < 1 ==> cart == Without(old(cart), id)
      ensures quantity >= 1 ==> cart == Requantified(old(cart), id, quantity)
      ensures quantity >= 1 && !HasId(old(cart), id) ==> cart == old(cart)
      ensures store.cart == Holds(cart)
      ensures UniqueIds(old(cart)) ==> UniqueIds(cart)
    {
      if quantity < 1 {
        RemoveFromCart(id);
        return;
      }
      if !HasId(cart, id) {
        RequantifiedAbsent(cart, id, quantity);
      }
      if UniqueIds(cart) {
        RequantifiedKeepsUnique(cart, id, quantity);
      }
      cart := Requantified(cart, id, quantity);
      store.cart := Holds(cart);
    }

    /** The three amounts the order summary shows. */
    method Summary() returns (subtotal: real, tax: real, total: real)
      ensures subtotal == Subtotal(cart)
      ensures tax == subtotal * 0.08
      ensures total == subtotal + tax + DeliveryFee
    {
      subtotal := Subtotal(cart);
      tax := Tax(subtotal);
      total := CartDisplayTotal(subtotal);
    }

    /** The checkout button: on to checkout when someone is signed in,
        otherwise to sign-in with a way back. */
    method Checkout() returns (route: string)
      ensures route == CheckoutRoute <==> !store.session.Absent?
      ensures route == LoginForCheckoutRoute <==> store.session.Absent?
    {
      if !store.session.Absent? {
        route := CheckoutRoute;
      } else {
        route := LoginForCheckoutRoute;
      }
    }
  }
}
