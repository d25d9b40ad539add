/** The storefront component (App.tsx): the five-step order wizard, the
    checkout and the active-order badge. The component's React state
    becomes the fields of `App`; the cart hook and the order store are the
    objects it drives. `crypto.randomUUID()` is the parameter `freshId`,
    the draws of `generateOrderId` are a parameter, and so are the order
    date and the outcome of the storage write. */
module App {
  import opened Types
  import Constants
  import Utils
  import Seqs
  import CartHook
  import DbService
  import OrderService
  import AuthService

  /** `ViewState`. */
  datatype View = Home | Wizard | Checkout | Success | Login | AdminPanel | Notifications

  /** One call `updateOrder(key, value)`: the key and its new value. */
  datatype OrderField =
    | SetPlatform(platform: Option<PlatformId>)
    | SetBoostType(boostType: Option<BoostType>)
    | SetQuantity(quantity: Option<string>)
    | SetLink(link: string)
    | SetWhatsapp(whatsapp: string)
    | SetNote(note: string)
    | SetPrice(price: int)

  /** The keys after which `updateOrder` recomputes the price. */
  predicate ChangesPrice(f: OrderField) {
    f.SetPlatform? || f.SetBoostType? || f.SetQuantity?
  }

  /** The price shown is the table price of the current selections. */
  predicate PriceConsistent(o: OrderState) {
    o.price == Constants.CalculatePrice(o.platform, o.boostType, o.quantity)
  }

  /** The state `updateOrder` computes: the key takes the value and, for a
      selection key, the price is recomputed from the new selections. */
  function ApplyUpdate(o: OrderState, f: OrderField): (r: OrderState)
    ensures r.platform == (if f.SetPlatform? then f.platform else o.platform)
    ensures r.boostType == (if f.SetBoostType? then f.boostType else o.boostType)
    ensures r.quantity == (if f.SetQuantity? then f.quantity else o.quantity)
    ensures r.link == (if f.SetLink? then f.link else o.link)
    ensures r.whatsapp == (if f.SetWhatsapp? then f.whatsapp else o.whatsapp)
    ensures r.note == (if f.SetNote? then f.note else o.note)
    ensures ChangesPrice(f) ==> PriceConsistent(r)
    ensures f.SetPrice? ==> r.price == f.price
    ensures !ChangesPrice(f) && !f.SetPrice? ==> r.price == o.price
  {
    match f
    case SetPlatform(p) => Repriced(o.(platform := p))
    case SetBoostType(t) => Repriced(o.(boostType := t))
    case SetQuantity(q) => Repriced(o.(quantity := q))
    case SetLink(l) => o.(link := l)
    case SetWhatsapp(w) => o.(whatsapp := w)
    case SetNote(n) => o.(note := n)
    case SetPrice(v) => o.(price := v)
  }

  function Repriced(o: OrderState): OrderState {
    o.(price := Constants.CalculatePrice(o.platform, o.boostType, o.quantity))
  }

  /** Every update except a direct write of the price keeps the price in
      step with the selections. */
  lemma UpdateKeepsPriceConsistent(o: OrderState, f: OrderField)
    requires PriceConsistent(o) && !f.SetPrice?
    ensures PriceConsistent(ApplyUpdate(o, f))
  {
  }

  /** The state `startWizard` installs. */
  function FreshOrder(whatsapp: string): (o: OrderState)
    ensures o.platform == None && o.boostType == None && o.quantity == None
    ensures o.link == "" && o.note == "" && o.whatsapp == whatsapp
    ensures o.price == 0 && PriceConsistent(o)
  {
    OrderState(None, None, None, "", whatsapp, "", 0)
  }

  /** Choosing a platform card (step 1): the platform is set, the boost
      type and quantity are cleared, and the price drops to 0. */
  lemma PlatformChoiceClears(o: OrderState, p: PlatformId)
    ensures var r := ApplyUpdate(ApplyUpdate(ApplyUpdate(o, SetPlatform(Some(p))), SetBoostType(None)), SetQuantity(None));
      r == o.(platform := Some(p), boostType := None, quantity := None, price := 0)
  {
  }

  /** Choosing a quantity the wizard offers for the chosen platform and
      boost type prices the order at its positive table entry. */
  lemma {:induction false} OfferedQuantityIsPriced(o: OrderState, q: string)
    requires o.platform.Some? && o.boostType.Some?
    requires Constants.IsQuantityOption(o.platform.value, o.boostType.value, q)
    ensures var r := ApplyUpdate(o, SetQuantity(Some(q)));
      r.price > 0 && r.price == Constants.PRICE_LIST[o.platform.value][o.boostType.value][q]
  {
    Constants.QuantityOptionsArePriced(o.platform.value, o.boostType.value, q);
  }

  /** The step-4 "Review Configuration" button is enabled. */
  predicate CanReview(o: OrderState) {
    |o.link| > 0 && Utils.ValidateWhatsAppNumber(o.whatsapp)
  }

  /** The guard of `handleAddToCart`: every selection made (a quantity
      label that is not empty), a link, and a valid WhatsApp number. */
  predicate CanAddToCart(o: OrderState) {
    o.platform.Some? && o.boostType.Some? && o.quantity.Some? && o.quantity.value != ""
    && o.link != "" && Utils.ValidateWhatsAppNumber(o.whatsapp)
  }

  /** Adding is possible exactly when the review button was and all three
      selections were made. */
  lemma CanAddIffReviewed(o: OrderState)
    ensures CanAddToCart(o) <==>
      CanReview(o) && o.platform.Some? && o.boostType.Some? && o.quantity.Some? && o.quantity.value != ""
  {
  }

  /** `x || undefined` on a string. */
  function OrNone(s: string): (r: Option<string>)
    ensures r == None <==> s == ""
    ensures r.Some? ==> r.value == s
  {
    if s == "" then None else Some(s)
  }

  /** The line `handleAddToCart` builds from the wizard state. */
  function ItemOf(o: OrderState, freshId: string): (item: CartItem)
    requires CanAddToCart(o)
    ensures item.id == freshId && item.count == 1 && item.price == o.price
    ensures item.platform == o.platform.value && item.boostType == o.boostType.value
    ensures item.quantityLabel == o.quantity.value
    ensures item.link == o.link && item.whatsapp == o.whatsapp
    ensures item.note == None <==> o.note == ""
    ensures o.note != "" ==> item.note == Some(o.note)
  {
    CartItem(freshId, o.platform.value, o.boostType.value, o.quantity.value, o.link, o.whatsapp,
             OrNone(o.note), o.price, 1)
  }

  /** A line added from a consistent wizard state carries the table price of
      its selections, positive when the quantity was one the wizard offers. */
  lemma {:induction false} AddedItemIsPriced(o: OrderState, freshId: string)
    requires CanAddToCart(o) && PriceConsistent(o)
    ensures var item := ItemOf(o, freshId);
      item.price == Constants.CalculatePrice(Some(item.platform), Some(item.boostType), Some(item.quantityLabel))
      && (Constants.IsQuantityOption(item.platform, item.boostType, item.quantityLabel) ==> item.price > 0)
  {
    var item := ItemOf(o, freshId);
    if Constants.IsQuantityOption(item.platform, item.boostType, item.quantityLabel) {
      Constants.QuantityOptionsArePriced(item.platform, item.boostType, item.quantityLabel);
    }
  }

  /** `/^\d{10}$/.test(paymentSenderPhone)`. */
  predicate IsSenderPhoneValid(senderPhone: string) {
    Utils.DigitRun(senderPhone, 10)
  }

  /** `/^\d{14}$/.test(paymentRefNo)`. */
  predicate IsRefNoValid(refNo: string) {
    Utils.DigitRun(refNo, 14)
  }

  /** The payment proof: a sender phone, and a reference or a receipt. */
  predicate IsPaymentValid(senderPhone: string, refNo: string, receipt: Option<string>) {
    IsSenderPhoneValid(senderPhone) && (IsRefNoValid(refNo) || receipt.Some?)
  }

  predicate AllDigits(s: string) {
    forall i :: 0 <= i < |s| ==> Utils.IsDigit(s[i])
  }

  /** The payment proof is valid iff the sender phone is exactly ten digits
      and either the reference is exactly fourteen digits or a receipt is
      attached. */
  lemma {:induction false} PaymentValidIff(senderPhone: string, refNo: string, receipt: Option<string>)
    ensures IsPaymentValid(senderPhone, refNo, receipt) <==>
      |senderPhone| == 10 && AllDigits(senderPhone)
      && ((|refNo| == 14 && AllDigits(refNo)) || receipt.Some?)
  {
    Utils.DigitRunIff(senderPhone, 10);
    Utils.DigitRunIff(refNo, 14);
  }

  /** A ten-digit sender phone alone does not unlock the purchase. */
  lemma PaymentNeedsProof()
    ensures !IsPaymentValid("0771234567", "", None)
  {
    PaymentValidIff("0771234567", "", None);
  }

  /** A ten-digit sender phone with a fourteen-digit reference does. */
  lemma PaymentWithReference()
    ensures IsPaymentValid("0771234567", "12345678901234", None)
  {
    assert forall c :: c in "0771234567" ==> Utils.IsDigit(c);
    assert forall c :: c in "12345678901234" ==> Utils.IsDigit(c);
    PaymentValidIff("0771234567", "12345678901234", None);
  }

  /** The payment record `handleFinalPurchase` submits; an empty reference
      or receipt is left out. */
  function PaymentOf(senderPhone: string, refNo: string, receipt: Option<string>): (p: PaymentDetails)
    ensures p.payMethod == EzCash && p.senderPhone == senderPhone
    ensures p.referenceNumber == None <==> refNo == ""
    ensures p.receiptImage == None <==> receipt == None || receipt == Some("")
    ensures p.referenceNumber.Some? ==> p.referenceNumber.value == refNo
    ensures p.receiptImage.Some? ==> p.receiptImage == receipt
  {
    PaymentDetails(EzCash, senderPhone, OrNone(refNo), if receipt.Some? then OrNone(receipt.value) else None)
  }

  /** An order still counts on the badge while Pending or Processing. */
  predicate IsActive(o: StoredOrder) {
    o.status == Pending || o.status == Processing
  }

  /** The badge: the customer's orders, filtered to the active ones, counted. */
  function ActiveOrderCount(orders: seq<StoredOrder>, customerId: string): (n: nat)
    ensures n <= |DbService.OrdersOfCustomer(orders, customerId)|
  {
    |Seqs.Filter(IsActive, DbService.OrdersOfCustomer(orders, customerId))|
  }

  /** The same number, counted directly over the store. */
  function CountActive(orders: seq<StoredOrder>, customerId: string): nat {
    if orders == [] then 0
    else (if orders[0].customerId == customerId && IsActive(orders[0]) then 1 else 0)
         + CountActive(orders[1..], customerId)
  }

  /** The badge counts exactly the stored orders that belong to the
      customer and are Pending or Processing. */
  lemma {:induction false} ActiveOrderCountIsCount(orders: seq<StoredOrder>, customerId: string)
    ensures ActiveOrderCount(orders, customerId) == CountActive(orders, customerId)
  {
    if orders != [] {
      ActiveOrderCountIsCount(orders[1..], customerId);
      var o := orders[0];
      var rest := DbService.OrdersOfCustomer(orders[1..], customerId);
      if o.customerId == customerId {
        assert DbService.OrdersOfCustomer(orders, customerId) == [o] + rest;
        assert ([o] + rest)[1..] == rest;
        if IsActive(o) {
          assert Seqs.Filter(IsActive, [o] + rest) == [o] + Seqs.Filter(IsActive, rest);
        }
      } else {
        assert DbService.OrdersOfCustomer(orders, customerId) == rest;
      }
    }
  }

  /** The component's state, apart from the cart and the store. */
  datatype Snapshot = Snapshot(
    view: View, step: int, user: Option<User>, order: OrderState, error: Option<string>,
    lastOrderId: Option<string>, activeOrderCount: nat,
    senderPhone: string, refNo: string, receipt: Option<string>, isProcessing: bool)

  class App {
    var view: View
    var step: int
    var user: Option<User>
    var order: OrderState
    var error: Option<string>
    var lastOrderId: Option<string>
    var activeOrderCount: nat
    var senderPhone: string
    var refNo: string
    var receipt: Option<string>
    var isProcessing: bool
    const cart: CartHook.Cart
    const store: DbService.OrderStore

    ghost function State(): Snapshot
      reads this
    {
      Snapshot(view, step, user, order, error, lastOrderId, activeOrderCount,
               senderPhone, refNo, receipt, isProcessing)
    }

    /** The wizard step stays within 1..5 and the price shown agrees with
        the selections. */
    predicate Valid()
      reads this
    {
      1 <= step <= 5 && PriceConsistent(order)
    }

    /** The initial state; the user is read from the stored session. */
    constructor (auth: AuthService.AuthStore, store: DbService.OrderStore)
      ensures Valid()
      ensures view == Home && step == 1 && user == auth.session && order == FreshOrder("")
      ensures error == None && lastOrderId == None && activeOrderCount == 0
      ensures senderPhone == "" && refNo == "" && receipt == None && !isProcessing
      ensures fresh(cart) && cart.items == [] && this.store == store
    {
      view := Home;
      step := 1;
      user := auth.session;
      order := FreshOrder("");
      error := None;
      lastOrderId := None;
      activeOrderCount := 0;
      senderPhone := "";
      refNo := "";
      receipt := None;
      isProcessing := false;
      cart := new CartHook.Cart();
      this.store := store;
    }

    /** `handleLoginSuccess`: an admin goes to the panel, a customer home. */
    method HandleLoginSuccess(loggedIn: User)
      modifies this
      ensures State() == old(State()).(user := Some(loggedIn), view := if loggedIn.role == Admin then AdminPanel else Home)
    {
      user := Some(loggedIn);
      if loggedIn.role == Admin {
        view := AdminPanel;
      } else {
        view := Home;
      }
    }

    /** `handleLogout`: the stored session and the component's user are
        cleared and the view goes home. */
    method HandleLogout(auth: AuthService.AuthStore)
      modifies this, auth
      ensures State() == old(State()).(user := None, view := Home)
      ensures auth.session == None && auth.users == old(auth.users)
    {
      auth.LogoutUser();
      user := None;
      view := Home;
    }

    /** `updateOrder`. */
    method UpdateOrder(f: OrderField)
      modifies this
      ensures State() == old(State()).(order := ApplyUpdate(old(order), f))
      ensures old(Valid()) && !f.SetPrice? ==> Valid()
    {
      if old(Valid()) && !f.SetPrice? {
        UpdateKeepsPriceConsistent(order, f);
      }
      order := ApplyUpdate(order, f);
    }

    /** `startWizard`: a logged-in customer's phone is the contact number. */
    method StartWizard()
      modifies this
      ensures State() == old(State()).(
        order := FreshOrder(if user.Some? && user.value.role == Customer then user.value.phone else ""),
        step := 1, view := Wizard)
      ensures Valid()
    {
      var whatsapp := if user.Some? && user.value.role == Customer then user.value.phone else "";
      order := FreshOrder(whatsapp);
      step := 1;
      view := Wizard;
    }

    /** `handleNext`: one step on, never past 5. */
    method HandleNext()
      modifies this
      ensures State() == old(State()).(step := if old(step) < 5 then old(step) + 1 else old(step))
      ensures old(Valid()) ==> Valid()
    {
      if step < 5 {
        step := step + 1;
      }
    }

    /** `handleBack`: one step back, or home from the first step. */
    method HandleBack()
      modifies this
      ensures old(step) > 1 ==> State() == old(State()).(step := old(step) - 1)
      ensures old(step) <= 1 ==> State() == old(State()).(view := Home)
      ensures old(Valid()) ==> Valid()
    {
      if step > 1 {
        step := step - 1;
      } else {
        view := Home;
      }
    }

    /** A platform card (step 1): select it, clear the later choices, move on. */
    method ChoosePlatform(p: PlatformId)
      modifies this
      ensures State() == old(State()).(
        order := old(order).(platform := Some(p), boostType := None, quantity := None, price := 0),
        step := if old(step) < 5 then old(step) + 1 else old(step))
      ensures old(Valid()) ==> Valid()
    {
      PlatformChoiceClears(order, p);
      UpdateOrder(SetPlatform(Some(p)));
      UpdateOrder(SetBoostType(None));
      UpdateOrder(SetQuantity(None));
      HandleNext();
    }

    /** `handleAddToCart`: past the guard, one line with count 1 goes into
        the cart and the wizard starts over from the home view. */
    method HandleAddToCart(freshId: string)
      modifies this, cart
      ensures !CanAddToCart(old(order)) ==>
        State() == old(State()) && cart.items == old(cart.items) && cart.isOpen == old(cart.isOpen)
      ensures CanAddToCart(old(order)) ==>
        && cart.items == old(cart.items) + [ItemOf(old(order), freshId)] && cart.isOpen
        && State() == old(State()).(
             order := FreshOrder(if user.Some? && user.value.role == Customer then user.value.phone else ""),
             step := 1, view := Home)
      ensures CanAddToCart(old(order)) ==> Valid()
      ensures old(Valid()) ==> Valid()
    {
      if !CanAddToCart(order) {
        return;
      }
      var newItem := ItemOf(order, freshId);
      cart.AddToCart(newItem);
      StartWizard();
      view := Home;
    }

    /** `handleCheckoutStart`: close the drawer and start with an empty
        payment form. */
    method HandleCheckoutStart()
      modifies this, cart
      ensures State() == old(State()).(error := None, senderPhone := "", refNo := "", receipt := None, view := Checkout)
      ensures !cart.isOpen && cart.items == old(cart.items)
    {
      cart.SetIsOpen(false);
      error := None;
      senderPhone := "";
      refNo := "";
      receipt := None;
      view := Checkout;
    }

    /** The sender-phone and reference inputs keep only the digits typed. */
    method EnterPayment(rawSenderPhone: string, rawRefNo: string)
      modifies this
      ensures State() == old(State()).(senderPhone := Utils.DigitsOnly(rawSenderPhone), refNo := Utils.DigitsOnly(rawRefNo))
    {
      senderPhone := Utils.DigitsOnly(rawSenderPhone);
      refNo := Utils.DigitsOnly(rawRefNo);
    }

    /** A receipt image was read (as a data URL). */
    method AttachReceipt(dataUrl: string)
      modifies this
      ensures State() == old(State()).(receipt := Some(dataUrl))
    {
      receipt := Some(dataUrl);
    }

    /** The purchase button is enabled. */
    predicate PurchaseEnabled()
      reads this, cart
    {
      !(isProcessing || |cart.items| == 0 || user.None? || !IsPaymentValid(senderPhone, refNo, receipt))
    }

    /** `handleFinalPurchase`. An empty cart does nothing; without a user
        the view goes to LOGIN and nothing is stored. Otherwise the order is
        submitted with the generated id; success stores exactly one order at
        the front, clears the cart and shows SUCCESS, failure keeps the cart
        and shows the error. */
    method HandleFinalPurchase(draws: seq<Utils.CharIndex>, orderDate: string, persistFails: bool)
      requires |draws| == 15
      modifies this, cart, store
      ensures cart.isOpen == old(cart.isOpen)
      ensures old(cart.items) == [] ==>
        State() == old(State()) && cart.items == old(cart.items) && store.orders == old(store.orders)
      ensures old(cart.items) != [] && old(user).None? ==>
        State() == old(State()).(view := Login) && cart.items == old(cart.items) && store.orders == old(store.orders)
      ensures old(cart.items) != [] && old(user).Some? && !persistFails ==>
        && store.orders == [OrderService.BuildOrder(Utils.Pick(draws), old(cart.items), CartHook.Total(old(cart.items)),
                                                    PaymentOf(old(senderPhone), old(refNo), old(receipt)),
                                                    Some(old(user).value.id), orderDate)] + old(store.orders)
        && store.orders[0].items == old(cart.items)
        && store.orders[0].totalAmount == CartHook.Total(store.orders[0].items)
        && store.orders[0].customerId == old(user).value.id && store.orders[0].status == Pending
        && cart.items == []
        && State() == old(State()).(view := Success, lastOrderId := Some(Utils.Pick(draws)), error := None, isProcessing := false)
      ensures old(cart.items) != [] && old(user).Some? && persistFails ==>
        && store.orders == old(store.orders) && cart.items == old(cart.items)
        && State() == old(State()).(error := Some(OrderService.FAILURE_MESSAGE), isProcessing := false)
      ensures old(Valid()) ==> Valid()
    {
      if |cart.items| == 0 {
        return;
      }
      if user.None? {
        view := Login;
        return;
      }
      ghost var before := State();
      isProcessing := true;
      error := None;
      var newOrderId := Utils.GenerateOrderId(draws);
      var paymentDetails := PaymentOf(senderPhone, refNo, receipt);
      var result := OrderService.SubmitOrderToSheet(store, newOrderId, cart.items, cart.CartTotal(), paymentDetails,
                                                    Some(user.value.id), orderDate, persistFails);
      if result.success {
        lastOrderId := Some(newOrderId);
        cart.ClearCart();
        view := Success;
        isProcessing := false;
        assert State() == before.(view := Success, lastOrderId := Some(newOrderId), error := None, isProcessing := false);
      } else {
        error := Some(result.message);
        isProcessing := false;
        assert State() == before.(error := Some(OrderService.FAILURE_MESSAGE), isProcessing := false);
      }
    }

    /** `handleFinalPurchase` as App.tsx writes it. App.tsx never imports
        `submitOrderToSheet`, so past the two guards the call to it throws:
        nothing is stored, the cart stays, and `setIsProcessing(false)` is
        never reached, which leaves the purchase button disabled. */
    method HandleFinalPurchaseAsWritten()
      modifies this
      ensures cart.items == old(cart.items) && store.orders == old(store.orders)
      ensures old(cart.items) == [] ==> State() == old(State())
      ensures old(cart.items) != [] && old(user).None? ==> State() == old(State()).(view := Login)
      ensures old(cart.items) != [] && old(user).Some? ==>
        State() == old(State()).(isProcessing := true, error := None) && !PurchaseEnabled()
    {
      if |cart.items| == 0 {
        return;
      }
      if user.None? {
        view := Login;
        return;
      }
      isProcessing := true;
      error := None;
    }

    /** The badge effect: for a customer, recount the active orders. */
    method RefreshActiveOrderCount()
      modifies this
      ensures user.Some? && user.value.role == Customer ==>
        State() == old(State()).(activeOrderCount := CountActive(store.orders, user.value.id))
      ensures !(user.Some? && user.value.role == Customer) ==> State() == old(State())
    {
      if user.Some? && user.value.role == Customer {
        var mine := store.GetOrdersByCustomer(user.value.id);
        activeOrderCount := |Seqs.Filter(IsActive, mine)|;
        ActiveOrderCountIsCount(store.orders, user.value.id);
      }
    }
  }
}
