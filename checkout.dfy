/** The checkout page: the guards run on mount, the three-step form, and
    placing an order (the order record, loyalty points, clearing the
    cart). Payment is cash on delivery. */
module Checkout {
  import opened Common
  import opened Records
  import opened CartLines
  import opened Accounts

  // ---- steps ----

  /** The buttons that move between steps: step 1 has "Continue to
      Payment", step 2 "Back" and "Review Order", step 3 "Back to
      Payment". No button checks the form. */
  datatype StepButton = ContinueToPayment | BackToDelivery | ReviewOrder | BackToPayment

  /** The step a button leads to, when the button is on the current step. */
  function Transition(step: int, button: StepButton): (next: Option<int>)
    ensures next.Some? ==> 1 <= next.value <= 3
    ensures next.Some? ==> next.value == step + 1 || next.value == step - 1
    ensures next.Some? ==> (next.value == step + 1 <==> button == ContinueToPayment || button == ReviewOrder)
    ensures next.Some? <==> (1 <= step <= 3 &&
      (button == ContinueToPayment <==> step == 1) &&
      (button == BackToPayment <==> step == 3))
  {
    match button
    case ContinueToPayment => if step == 1 then Some(2) else None
    case BackToDelivery => if step == 2 then Some(1) else None
    case ReviewOrder => if step == 2 then Some(3) else None
    case BackToPayment => if step == 3 then Some(2) else None
  }

  /** The step after a run of presses; a press on a button that is not on
      the current step does nothing. */
  function Run(step: int, presses: seq<StepButton>): int
    decreases |presses|
  {
    if presses == [] then step
    else Run(Transition(step, presses[0]).GetOr(step), presses[1..])
  }

  lemma {:induction false} RunStaysInRange(step: int, presses: seq<StepButton>)
    requires 1 <= step <= 3
    ensures 1 <= Run(step, presses) <= 3
    decreases |presses|
  {
    if presses != [] {
      RunStaysInRange(Transition(step, presses[0]).GetOr(step), presses[1..]);
    }
  }

  /** The steps are passed one at a time: a run from the first step that
      ends on the review step went through the payment step. */
  lemma {:induction false} ReviewComesAfterPayment(step: int, presses: seq<StepButton>)
    requires step == 1 && Run(step, presses) == 3
    ensures exists k :: 0 <= k < |presses| && Run(step, presses[..k]) == 2
  {
    RunPassesTwo(step, presses);
  }

  lemma {:induction false} RunPassesTwo(step: int, presses: seq<StepButton>)
    requires step <= 2 && Run(step, presses) == 3
    ensures exists k :: 0 <= k < |presses| && Run(step, presses[..k]) == 2
    decreases |presses|
  {
    assert presses != [];
    if step == 2 {
      assert Run(step, presses[..0]) == 2;
    } else {
      var next := Transition(step, presses[0]).GetOr(step);
      assert next <= 2;
      RunPassesTwo(next, presses[1..]);
      var k :| 0 <= k < |presses[1..]| && Run(next, presses[1..][..k]) == 2;
      assert presses[..k + 1][1..] == presses[1..][..k];
      assert Run(step, presses[..k + 1]) == 2;
    }
  }

  // ---- the order ----

  /** The seeded delivery form: the session's contact fields over the
      current form; the instructions are kept. */
  function Seeded(form: DeliveryInfo, s: Session): (d: DeliveryInfo)
    ensures d.instructions == form.instructions
    ensures d.name == s.name && d.email == s.email && d.phone == s.phone
    ensures d.address == s.address && d.city == s.city && d.state == s.state && d.zipCode == s.zipCode
  {
    form.(name := s.name, email := s.email, phone := s.phone, address := s.address,
          city := s.city, state := s.state, zipCode := s.zipCode)
  }

  /** The e-mail of the stored session, "" when there is none or it does
      not parse. */
  function SessionEmail(session: Slot<Session>): (email: string)
    ensures session.Holds? ==> email == session.value.email
    ensures !session.Holds? ==> email == ""
  {
    if session.Holds? then session.value.email else ""
  }

  /** The one-line address on the order. */
  function AddressLine(d: DeliveryInfo): string
  {
    d.address + ", " + d.city + ", " + d.state + " " + d.zipCode
  }

  /** The order placed for `cart`: a snapshot of its lines with catalog
      names and prices, the three amounts and their sum, cash on delivery,
      pending, and the session's e-mail (the form's when the session has
      none). */
  function BuildOrder(orderId: string, orderDate: string, cart: seq<CartLine>,
                      delivery: DeliveryInfo, sessionEmail: string): (o: Order)
    ensures o.items == OrderItems(cart)
    ensures ItemsTotal(o.items) == o.subtotal == Subtotal(cart)
    ensures o.tax == Tax(o.subtotal) && o.deliveryFee == DeliveryFee
    ensures o.total == o.subtotal + o.tax + o.deliveryFee
    ensures o.userEmail == if sessionEmail != "" then sessionEmail else delivery.email
    ensures o.status == "Pending" && o.paymentMethod == "Cash on Delivery"
    ensures o.orderId == orderId && o.orderDate == orderDate && o.delivery == delivery
    ensures o.deliveryAddress == AddressLine(delivery)
  {
    OrderItemsTotal(cart);
    var subtotal := Subtotal(cart);
    Order(orderId, if sessionEmail != "" then sessionEmail else delivery.email, orderDate,
          OrderItems(cart), delivery, "Cash on Delivery",
          subtotal, Tax(subtotal), DeliveryFee, CheckoutTotal(subtotal),
          "Pending", AddressLine(delivery))
  }

  /** Points earned on an order: one per whole dollar of subtotal. */
  function Earned(subtotal: real): (points: int)
    ensures points as real <= subtotal < points as real + 1.0
  {
    subtotal.Floor
  }

  /** An order of non-negative quantities never takes points away. */
  lemma EarnedNonNegative(cart: seq<CartLine>)
    requires forall i :: 0 <= i < |cart| ==> cart[i].quantity >= 0
    ensures Earned(Subtotal(cart)) >= 0
  {
  }

  /** The accounts after an order: the account at `index` is given the
      session's new point total, nothing else changes. */
  function WithPoints(users: seq<Account>, index: nat, points: int): (r: seq<Account>)
    requires index < |users|
    ensures |r| == |users|
    ensures r[index] == users[index].(loyaltyPoints := points)
    ensures forall j :: 0 <= j < |users| && j != index ==> r[j] == users[j]
  {
    users[index := users[index].(loyaltyPoints := points)]
  }

  lemma WithPointsKeepsUniqueEmails(users: seq<Account>, index: nat, points: int)
    requires index < |users| && UniqueEmails(users)
    ensures UniqueEmails(WithPoints(users, index, points))
  {
    var r := WithPoints(users, index, points);
    forall i, j | 0 <= i < j < |r| ensures r[i].email != r[j].email {
      assert r[i].email == users[i].email && r[j].email == users[j].email;
    }
  }

  /** When the account agreed with the session before the order, it gains
      exactly the points earned. */
  lemma AccountGainsEarned(users: seq<Account>, s: Session, subtotal: real)
    requires IndexOfEmail(users, s.email).Some?
    requires users[IndexOfEmail(users, s.email).value].loyaltyPoints == s.loyaltyPoints
    ensures var i := IndexOfEmail(users, s.email).value;
      WithPoints(users, i, s.loyaltyPoints + Earned(subtotal))[i].loyaltyPoints ==
      users[i].loyaltyPoints + Earned(subtotal)
  {
  }

  /** The session after an order: its points raised by the points earned. */
  function Awarded(s: Session, subtotal: real): (r: Slot<Session>)
    ensures r.Holds? && r.value.(loyaltyPoints := s.loyaltyPoints) == s
    ensures r.value.loyaltyPoints == s.loyaltyPoints + Earned(subtotal)
  {
    Holds(s.(loyaltyPoints := s.loyaltyPoints + Earned(subtotal)))
  }

  /** The stored accounts after an order: when the list parses and has an
      account with the session's e-mail, the first such account gets the
      session's new point total; otherwise the slot is unchanged. */
  function AccountsAwarded(users: Slot<seq<Account>>, s: Session, subtotal: real): (r: Slot<seq<Account>>)
    ensures users.Garbled? || IndexOfEmail(OrEmpty(users), s.email).None? ==> r == users
    ensures !users.Garbled? && IndexOfEmail(OrEmpty(users), s.email).Some? ==>
      var i := IndexOfEmail(OrEmpty(users), s.email).value;
      r.Holds? && |r.value| == |OrEmpty(users)| &&
      r.value[i] == OrEmpty(users)[i].(loyaltyPoints := Awarded(s, subtotal).value.loyaltyPoints) &&
      forall j :: 0 <= j < |r.value| && j != i ==> r.value[j] == OrEmpty(users)[j]
  {
    if users.Garbled? then users
    else
      var index := IndexOfEmail(OrEmpty(users), s.email);
      if index.None? then users
      else Holds(WithPoints(OrEmpty(users), index.value, s.loyaltyPoints + Earned(subtotal)))
  }

  class CheckoutPage {
    var cart: seq<CartLine>
    var activeStep: int
    var orderPlaced: bool
    var delivery: DeliveryInfo
    const store: LocalStorage

    constructor(store: LocalStorage)
      ensures this.store == store
      ensures cart == [] && activeStep == 1 && !orderPlaced && delivery == BlankDelivery
    {
      this.store := store;
      cart := [];
      activeStep := 1;
      orderPlaced := false;
      delivery := BlankDelivery;
    }

    /** The mount effect. Without a session: off to sign in, nothing read.
        Otherwise the cart is read (a missing cart sends to the menu, an
        empty or unreadable one to the cart page) and the delivery form is
        seeded from the session when it parses. */
    method Mount() returns (route: Option<string>)
      modifies this`cart, this`delivery
      ensures store.session.Absent? ==>
        route == Some(LoginForCheckoutRoute) && cart == old(cart) && delivery == old(delivery)
      ensures !store.session.Absent? ==>
        match store.cart
        case Absent => route == Some(HomeRoute) && cart == old(cart)
        case Garbled => route == Some(CartRoute) && cart == []
        case Holds(saved) =>
          (cart == saved && (route == Some(CartRoute) <==> saved == []) && (route.None? <==> saved != []))
      ensures store.session.Holds? ==> delivery == Seeded(old(delivery), store.session.value)
      ensures store.session.Garbled? ==> delivery == old(delivery)
    {
      route := None;
      if store.session.Absent? {
        route := Some(LoginForCheckoutRoute);
        return;
      }
      match store.cart {
        case Holds(saved) =>
          cart := saved;
          if |saved| == 0 {
            route := Some(CartRoute);
          }
        case Garbled =>
          cart := [];
          route := Some(CartRoute);
        case Absent =>
          route := Some(HomeRoute);
      }
      if store.session.Holds? {
        delivery := Seeded(delivery, store.session.value);
      }
    }

    /** Typing in the delivery form. */
    method EditDelivery(info: DeliveryInfo)
      modifies this`delivery
      ensures delivery == info
    {
      delivery := info;
    }

    /** A step button; once the order is placed no button is shown. */
    method Press(button: StepButton)
      modifies this`activeStep
      ensures orderPlaced ==> activeStep == old(activeStep)
      ensures !orderPlaced ==> activeStep == Transition(old(activeStep), button).GetOr(old(activeStep))
    {
      if !orderPlaced {
        var next := Transition(activeStep, button);
        if next.Some? {
          activeStep := next.value;
        }
      }
    }

    /** "Place Order". The order is appended to the stored orders; when
        that succeeds and the session parses, the loyalty points are
        awarded (`AwardPoints`). The cart is removed and the page shows the
        placed state whatever happened before. `orderId` and `orderDate`
        stand for the clock-derived values. The button is shown on the
        review step only, and only until the order is placed. */
    method PlaceOrder(orderId: string, orderDate: string) returns (route: string)
      requires activeStep == 3 && !orderPlaced
      modifies this`orderPlaced, store`orders, store`session, store`users, store`cart
      ensures var order := BuildOrder(orderId, orderDate, cart, delivery, SessionEmail(old(store.session)));
        if old(store.orders).Garbled? then store.orders == old(store.orders)
        else store.orders == Holds(OrEmpty(old(store.orders)) + [order])
      ensures (old(store.orders).Garbled? || !old(store.session).Holds?) ==>
        store.session == old(store.session) && store.users == old(store.users)
      ensures (!old(store.orders).Garbled? && old(store.session).Holds?) ==>
        store.session == Awarded(old(store.session).value, Subtotal(cart)) &&
        store.users == AccountsAwarded(old(store.users), old(store.session).value, Subtotal(cart))
      ensures old(store.users).Holds? && UniqueEmails(old(store.users).value) ==>
        store.users.Holds? && UniqueEmails(store.users.value)
      ensures store.cart.Absent? && orderPlaced && route == OrdersRoute
    {
      var order := BuildOrder(orderId, orderDate, cart, delivery, SessionEmail(store.session));
      if !store.orders.Garbled? {
        store.orders := Holds(OrEmpty(store.orders) + [order]);
        if store.session.Holds? {
          AwardPoints(Subtotal(cart));
        }
      }
      store.cart := Absent;
      orderPlaced := true;
      route := OrdersRoute;
    }

    /** The loyalty update after an order: the session's points rise by the
        points earned, and the account with the session's e-mail, when the
        account list parses and has one, is given the same total. */
    method AwardPoints(subtotal: real)
      requires store.session.Holds?
      modifies store`session, store`users
      ensures store.session == Awarded(old(store.session).value, subtotal)
      ensures store.users == AccountsAwarded(old(store.users), old(store.session).value, subtotal)
      ensures old(store.users).Holds? && UniqueEmails(old(store.users).value) ==>
        store.users.Holds? && UniqueEmails(store.users.value)
    {
      var s := store.session.value;
      var points := s.loyaltyPoints + Earned(subtotal);
      store.session := Holds(s.(loyaltyPoints := points));
      if !store.users.Garbled? {
        var users := OrEmpty(store.users);
        var index := IndexOfEmail(users, s.email);
        if index.Some? {
          if UniqueEmails(users) {
            WithPointsKeepsUniqueEmails(users, index.value, points);
          }
          store.users := Holds(WithPoints(users, index.value, points));
        }
      }
    }
  }
}
