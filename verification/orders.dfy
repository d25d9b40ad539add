/** Order submission (services/orderService.ts): build a Pending order
    record from the cart and the payment proof and store it first in the
    order list. The call is synchronous here; a failure of the storage
    write is the parameter `persistFails`, and the order date is a
    parameter too. */
module OrderService {
  import opened Types
  import DbService

  datatype SubmissionResult = SubmissionResult(success: bool, message: string)

  const SUCCESS_MESSAGE: string := "Your order has been placed successfully!"
  const FAILURE_MESSAGE: string := "Failed to submit order. Please check your connection and try again."
  const GUEST_ID: string := "GUEST"

  /** The order's contact number: the first line's WhatsApp number. */
  function CustomerContact(cart: seq<CartItem>): (contact: string)
    ensures cart == [] ==> contact == "N/A"
    ensures cart != [] ==> contact == cart[0].whatsapp
  {
    if |cart| > 0 then cart[0].whatsapp else "N/A"
  }

  /** The record `submitOrderToSheet` stores; an absent customer id is the
      default parameter 'GUEST'. */
  function BuildOrder(orderId: string, cart: seq<CartItem>, totalAmount: int, payment: PaymentDetails,
                      customerId: Option<string>, orderDate: string): StoredOrder
  {
    StoredOrder(
      orderId,
      if customerId.Some? then customerId.value else GUEST_ID,
      CustomerContact(cart),
      orderDate,
      cart,
      totalAmount,
      Pending,
      payment,
      None)
  }

  /** A new order is Pending, carries no note, and keeps the given id, cart,
      total and payment; its owner is the given customer or 'GUEST'. */
  lemma BuildOrderIsPending(orderId: string, cart: seq<CartItem>, totalAmount: int, payment: PaymentDetails,
                            customerId: Option<string>, orderDate: string)
    ensures var o := BuildOrder(orderId, cart, totalAmount, payment, customerId, orderDate);
      && o.status == Pending && o.adminNote == None
      && o.orderId == orderId && o.items == cart && o.totalAmount == totalAmount && o.payment == payment
      && (customerId == None ==> o.customerId == GUEST_ID)
      && (customerId.Some? ==> o.customerId == customerId.value)
  {
  }

  /** `submitOrderToSheet`: on success exactly one order is added, at the
      front; on a storage failure nothing is stored. */
  method SubmitOrderToSheet(store: DbService.OrderStore, orderId: string, cart: seq<CartItem>, totalAmount: int,
                            paymentDetails: PaymentDetails, customerId: Option<string>, orderDate: string,
                            persistFails: bool)
    returns (result: SubmissionResult)
    modifies store
    ensures result.success == !persistFails
    ensures result.success ==> result.message == SUCCESS_MESSAGE
    ensures !result.success ==> result.message == FAILURE_MESSAGE
    ensures result.success ==>
      store.orders == [BuildOrder(orderId, cart, totalAmount, paymentDetails, customerId, orderDate)] + old(store.orders)
    ensures !result.success ==> store.orders == old(store.orders)
  {
    if persistFails {
      return SubmissionResult(false, FAILURE_MESSAGE);
    }
    var localOrder := BuildOrder(orderId, cart, totalAmount, paymentDetails, customerId, orderDate);
    store.SaveOrderToDb(localOrder);
    return SubmissionResult(true, SUCCESS_MESSAGE);
  }
}
