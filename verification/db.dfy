/** The order store (services/dbService.ts). The stored JSON list becomes
    the field `orders` of `OrderStore`; parsing and serialising it is the
    identity on values, so every read sees a copy that later changes to the
    caller's data cannot reach. */
module DbService {
  import opened Types
  import Seqs

  /** `orders.findIndex(o => o.orderId === orderId)`. */
  function IndexOfOrder(orders: seq<StoredOrder>, orderId: string): int {
    Seqs.FirstIndex((o: StoredOrder) => o.orderId == orderId, orders)
  }

  /** `i` is the first position holding an order with this id. */
  predicate IsFirstWithId(orders: seq<StoredOrder>, orderId: string, i: int) {
    0 <= i < |orders| && orders[i].orderId == orderId
    && forall j :: 0 <= j < i ==> orders[j].orderId != orderId
  }

  /** The list `updateOrderStatus` writes back. */
  function WithStatus(orders: seq<StoredOrder>, orderId: string, status: OrderStatus): seq<StoredOrder> {
    var index := IndexOfOrder(orders, orderId);
    if index != -1 then orders[index := orders[index].(status := status)] else orders
  }

  /** The list `updateOrderAdminNote` writes back. */
  function WithAdminNote(orders: seq<StoredOrder>, orderId: string, note: string): seq<StoredOrder> {
    var index := IndexOfOrder(orders, orderId);
    if index != -1 then orders[index := orders[index].(adminNote := Some(note))] else orders
  }

  /** A status update changes the status of the first order with the id
      and nothing else; with no such order it changes nothing. */
  lemma WithStatusEffect(orders: seq<StoredOrder>, orderId: string, status: OrderStatus)
    ensures |WithStatus(orders, orderId, status)| == |orders|
    ensures forall i :: IsFirstWithId(orders, orderId, i) ==>
              WithStatus(orders, orderId, status)[i] == orders[i].(status := status)
    ensures forall i :: 0 <= i < |orders| && !IsFirstWithId(orders, orderId, i) ==>
              WithStatus(orders, orderId, status)[i] == orders[i]
    ensures (forall i :: 0 <= i < |orders| ==> orders[i].orderId != orderId) ==>
              WithStatus(orders, orderId, status) == orders
  {
    var index := IndexOfOrder(orders, orderId);
    if index != -1 {
      assert IsFirstWithId(orders, orderId, index);
      assert forall i :: IsFirstWithId(orders, orderId, i) ==> i == index;
    }
  }

  /** A note update overwrites the note of the first order with the id and
      nothing else; with no such order it changes nothing. */
  lemma WithAdminNoteEffect(orders: seq<StoredOrder>, orderId: string, note: string)
    ensures |WithAdminNote(orders, orderId, note)| == |orders|
    ensures forall i :: IsFirstWithId(orders, orderId, i) ==>
              WithAdminNote(orders, orderId, note)[i] == orders[i].(adminNote := Some(note))
    ensures forall i :: 0 <= i < |orders| && !IsFirstWithId(orders, orderId, i) ==>
              WithAdminNote(orders, orderId, note)[i] == orders[i]
    ensures (forall i :: 0 <= i < |orders| ==> orders[i].orderId != orderId) ==>
              WithAdminNote(orders, orderId, note) == orders
  {
    var index := IndexOfOrder(orders, orderId);
    if index != -1 {
      assert IsFirstWithId(orders, orderId, index);
      assert forall i :: IsFirstWithId(orders, orderId, i) ==> i == index;
    }
  }

  /** The content of an order is fixed once placed: neither admin update
      touches the items, the total, the ids or the payment of any order. */
  predicate SameContent(a: seq<StoredOrder>, b: seq<StoredOrder>) {
    |a| == |b| &&
    forall i :: 0 <= i < |a| ==>
      a[i].items == b[i].items && a[i].totalAmount == b[i].totalAmount &&
      a[i].orderId == b[i].orderId && a[i].customerId == b[i].customerId &&
      a[i].payment == b[i].payment
  }

  lemma {:induction false} UpdatesKeepContent(orders: seq<StoredOrder>, orderId: string, status: OrderStatus, note: string)
    ensures SameContent(orders, WithStatus(orders, orderId, status))
    ensures SameContent(orders, WithAdminNote(orders, orderId, note))
  {
    var index := IndexOfOrder(orders, orderId);
    if index != -1 {
      assert WithStatus(orders, orderId, status) == orders[index := orders[index].(status := status)];
      assert WithAdminNote(orders, orderId, note) == orders[index := orders[index].(adminNote := Some(note))];
    }
  }

  /** The list `deleteOrder` writes back. */
  function WithoutOrder(orders: seq<StoredOrder>, orderId: string): (r: seq<StoredOrder>)
    ensures forall i :: 0 <= i < |r| ==> r[i].orderId != orderId
    ensures forall i :: 0 <= i < |orders| && orders[i].orderId != orderId ==> orders[i] in r
    ensures Seqs.IsSubsequence(r, orders)
    ensures (forall i :: 0 <= i < |orders| ==> orders[i].orderId != orderId) ==> r == orders
    ensures forall o :: multiset(r)[o] == if o.orderId != orderId then multiset(orders)[o] else 0
  {
    Seqs.FilterCounts((o: StoredOrder) => o.orderId != orderId, orders);
    Seqs.Filter((o: StoredOrder) => o.orderId != orderId, orders)
  }

  /** `getOrdersByCustomer`: exactly the customer's orders, in stored order. */
  function OrdersOfCustomer(orders: seq<StoredOrder>, customerId: string): (r: seq<StoredOrder>)
    ensures forall i :: 0 <= i < |r| ==> r[i].customerId == customerId && r[i] in orders
    ensures forall i :: 0 <= i < |orders| && orders[i].customerId == customerId ==> orders[i] in r
    ensures Seqs.IsSubsequence(r, orders)
    ensures forall o :: multiset(r)[o] == if o.customerId == customerId then multiset(orders)[o] else 0
  {
    Seqs.FilterCounts((o: StoredOrder) => o.customerId == customerId, orders);
    Seqs.Filter((o: StoredOrder) => o.customerId == customerId, orders)
  }

  /** A deleted order is gone from the full list and from its customer's list. */
  lemma DeletedOrderIsGone(orders: seq<StoredOrder>, orderId: string, customerId: string)
    ensures forall o :: o in WithoutOrder(orders, orderId) ==> o.orderId != orderId
    ensures forall o :: o in OrdersOfCustomer(WithoutOrder(orders, orderId), customerId) ==> o.orderId != orderId
  {
    var rest := WithoutOrder(orders, orderId);
    var mine := OrdersOfCustomer(rest, customerId);
    assert forall i :: 0 <= i < |mine| ==> mine[i] in rest;
  }

  /** The stored orders (`nethmina_orders`). */
  class OrderStore {
    var orders: seq<StoredOrder>

    /** Nothing stored yet: `getAllOrders` gives the empty list. */
    constructor ()
      ensures orders == []
    {
      orders := [];
    }

    /** `saveOrderToDb`: the new order goes first, the others shift by one. */
    method SaveOrderToDb(order: StoredOrder)
      modifies this
      ensures orders == [order] + old(orders)
      ensures orders[0] == order && orders[1..] == old(orders)
    {
      orders := [order] + orders;
    }

    /** `getAllOrders`. */
    method GetAllOrders() returns (r: seq<StoredOrder>)
      ensures r == orders
    {
      r := orders;
    }

    /** `updateOrderStatus`. */
    method UpdateOrderStatus(orderId: string, status: OrderStatus)
      modifies this
      ensures orders == WithStatus(old(orders), orderId, status)
    {
      var index := IndexOfOrder(orders, orderId);
      if index != -1 {
        orders := orders[index := orders[index].(status := status)];
      }
    }

    /** `updateOrderAdminNote`. */
    method UpdateOrderAdminNote(orderId: string, note: string)
      modifies this
      ensures orders == WithAdminNote(old(orders), orderId, note)
    {
      var index := IndexOfOrder(orders, orderId);
      if index != -1 {
        orders := orders[index := orders[index].(adminNote := Some(note))];
      }
    }

    /** `deleteOrder`. */
    method DeleteOrder(orderId: string)
      modifies this
      ensures orders == WithoutOrder(old(orders), orderId)
    {
      orders := WithoutOrder(orders, orderId);
    }

    /** `getOrdersByCustomer`. */
    method GetOrdersByCustomer(customerId: string) returns (r: seq<StoredOrder>)
      ensures r == OrdersOfCustomer(orders, customerId)
    {
      r := OrdersOfCustomer(orders, customerId);
    }
  }
}
