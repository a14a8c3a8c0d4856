/**
 * The order routes of app.js that take part in checkout: `POST /orders/:id/pay`, which charges an order
 * through the payment gateway and marks it paid, `GET /orders/status/:transactionId`, which looks an order
 * up by transaction id, and `authMiddleware`, the 401 gate of the other order routes. The order collection
 * is a map from document id to order; what the database, the gateway and the libraries do during one
 * request is passed in as `Effects`.
 */
module Checkout {
  import opened Options
  import opened Http
  import opened PaymentGateway

  /** The order fields the checkout routes read or write. */
  datatype Order = Order(user: string, total: real, status: string, transactionId: Option<string>)

  /** The order collection, by document id. */
  type Store = map<string, Order>

  /** What `axios.request` settles to: `response.data.transactionId` (possibly absent), or an error message. */
  datatype GatewayReply = Accepted(transactionId: Option<string>) | Rejected(message: string)

  /** Everything outside the handler's own logic that decides how one pay request goes. */
  datatype Effects = Effects(
    prims: Primitives,
    findFails: bool,                          // Order.findById rejects (a malformed id, a lost connection)
    merchantTxn: TransactionNumber,           // first generatedTranscId() call
    redirectTxn: TransactionNumber,           // second generatedTranscId() call
    gateway: OutboundRequest -> GatewayReply, // the payment provider's answer to the request it is sent
    saveError: Option<string>)                // order.save() rejects with this message

  /** The JSON bodies of the order routes. */
  datatype OrderBody =
    | Message(message: string)
    | PaymentFailed(message: string, error: string)
    | PaidReply(message: string, phonePeTransactionId: Option<string>)

  /** The collection after a pay request, the reply, and the request sent to the gateway, if one was. */
  datatype PayOutcome = PayOutcome(store: Store, response: Response<OrderBody>, sent: Option<OutboundRequest>)

  const OrderNotFound: Response<OrderBody> := Response(StatusNotFound, Message("Order not found"))
  const PaymentError: Response<OrderBody> := Response(StatusBadRequest, Message("Error processing payment"))
  const StatusUpdated: Response<OrderBody> := Response(StatusOk, Message("Order status updated successfully"))
  const StatusError: Response<OrderBody> := Response(StatusBadRequest, Message("Error updating order status"))
  const Unauthorized: Response<OrderBody> := Response(StatusUnauthorized, Message("Unauthorized"))

  /** Passport's `req.isAuthenticated()`: a user is attached to the request. */
  predicate IsAuthenticated(user: Option<User>) {
    user.Some?
  }

  /**
   * `authMiddleware`: an unauthenticated request is answered 401 and the route handler never runs, so the
   * state is untouched; an authenticated one is exactly what the handler makes of it.
   */
  function AuthGate<S(==)>(authenticated: bool, state: S, handler: S -> (S, Response<OrderBody>)): (r: (S, Response<OrderBody>))
    ensures !authenticated ==> r.0 == state && r.1 == Unauthorized
    ensures authenticated ==> r == handler(state)
  {
    if !authenticated then (state, Unauthorized) else handler(state)
  }

  /** The request the pay handler sends for `order` on behalf of `user`. */
  function PayRequest(order: Order, user: User, fx: Effects): OutboundRequest {
    Outbound(fx.prims, PaymentData(order.total, user, fx.merchantTxn, fx.redirectTxn))
  }

  /**
   * `POST /orders/:id/pay`. A failed lookup gives 400; an unknown order 404; a request without a user
   * throws at `req.user._id` and gives 400 -- in all three nothing is signed or sent. Otherwise the signed
   * request goes to the gateway: a rejection gives 500 "Payment Failed" with its message; an acceptance sets
   * the order's status to "paid" and saves it, replying 200 with the gateway's transaction id, unless the
   * save rejects, which the same catch turns into 500 with nothing stored.
   */
  function Pay(store: Store, orderId: string, user: Option<User>, fx: Effects): (r: PayOutcome)
    ensures fx.findFails ==> r == PayOutcome(store, PaymentError, None)
    ensures !fx.findFails && orderId !in store ==> r == PayOutcome(store, OrderNotFound, None)
    ensures !fx.findFails && orderId in store && user.None? ==> r == PayOutcome(store, PaymentError, None)
    ensures r.sent.Some? <==> !fx.findFails && orderId in store && user.Some?
    ensures r.sent.Some? ==> r.sent.value == PayRequest(store[orderId], user.value, fx)
    ensures r.sent.Some? ==>
      r.sent.value.xVerify == fx.prims.sha256Hex(r.sent.value.request + PayPath + SaltKey) + "###1"
    ensures r.sent.Some? && fx.gateway(r.sent.value).Rejected? ==>
      r.response == Response(StatusServerError, PaymentFailed("Payment Failed", fx.gateway(r.sent.value).message))
    ensures r.sent.Some? && fx.gateway(r.sent.value).Accepted? && fx.saveError.Some? ==>
      r.response == Response(StatusServerError, PaymentFailed("Payment Failed", fx.saveError.value))
    ensures r.response.status == StatusOk <==>
      r.sent.Some? && fx.gateway(r.sent.value).Accepted? && fx.saveError.None?
    ensures r.response.status == StatusOk ==>
      && r.store == store[orderId := store[orderId].(status := "paid")]
      && r.response.body == PaidReply("Order paid successfully", fx.gateway(r.sent.value).transactionId)
    ensures r.response.status != StatusOk ==> r.store == store
  {
    if fx.findFails then PayOutcome(store, PaymentError, None)
    else if orderId !in store then PayOutcome(store, OrderNotFound, None)
    else if user.None? then PayOutcome(store, PaymentError, None)
    else
      var order := store[orderId];
      var req := PayRequest(order, user.value, fx);
      match fx.gateway(req)
      case Rejected(message) =>
        PayOutcome(store, Response(StatusServerError, PaymentFailed("Payment Failed", message)), Some(req))
      case Accepted(phonePeTransactionId) =>
        match fx.saveError
        case Some(e) =>
          PayOutcome(store, Response(StatusServerError, PaymentFailed("Payment Failed", e)), Some(req))
        case None =>
          PayOutcome(store[orderId := order.(status := "paid")],
                     Response(StatusOk, PaidReply("Order paid successfully", phonePeTransactionId)), Some(req))
  }

  /** The transaction ids recorded on orders. */
  function TransactionIds(store: Store): (ids: set<string>)
    ensures forall t :: t in ids <==> exists k :: k in store && store[k].transactionId == Some(t)
  {
    set k | k in store && store[k].transactionId.Some? :: store[k].transactionId.value
  }

  /**
   * `GET /orders/status/:transactionId`: 200 with a fixed message when some order carries the transaction
   * id, 404 when none does, 400 when the query fails. The order's status is not reported and nothing is
   * written: the collection is not even part of the result.
   */
  function StatusLookup(store: Store, transactionId: string, findFails: bool): (r: Response<OrderBody>)
    ensures findFails ==> r == StatusError
    ensures !findFails && (exists k :: k in store && store[k].transactionId == Some(transactionId)) ==>
      r == StatusUpdated
    ensures !findFails && (forall k :: k in store ==> store[k].transactionId != Some(transactionId)) ==>
      r == OrderNotFound
  {
    if findFails then StatusError
    else if transactionId in TransactionIds(store) then StatusUpdated
    else OrderNotFound
  }

  /** Setting one order's status leaves the ids of the orders and all their transaction ids as they were. */
  lemma StatusChangeKeepsTransactionIds(store: Store, orderId: string, status: string)
    requires orderId in store
    ensures var after := store[orderId := store[orderId].(status := status)];
      && after.Keys == store.Keys
      && (forall k :: k in store ==> after[k].transactionId == store[k].transactionId)
      && TransactionIds(after) == TransactionIds(store)
  {
    var after := store[orderId := store[orderId].(status := status)];
    assert forall k :: k in store ==> after[k].transactionId == store[k].transactionId;
    forall t | t in TransactionIds(after) ensures t in TransactionIds(store) {
      var k :| k in after && after[k].transactionId == Some(t);
      assert store[k].transactionId == Some(t);
    }
    forall t | t in TransactionIds(store) ensures t in TransactionIds(after) {
      var k :| k in store && store[k].transactionId == Some(t);
      assert after[k].transactionId == Some(t);
    }
  }

  /**
   * Pay never writes an order's transaction id, not even on success: the set of ids the status route can
   * find is the same before and after.
   */
  lemma PayKeepsTransactionIds(store: Store, orderId: string, user: Option<User>, fx: Effects)
    ensures var after := Pay(store, orderId, user, fx).store;
      && after.Keys == store.Keys
      && (forall k :: k in store ==> after[k].transactionId == store[k].transactionId)
      && TransactionIds(after) == TransactionIds(store)
  {
    var r := Pay(store, orderId, user, fx);
    if r.response.status == StatusOk {
      StatusChangeKeepsTransactionIds(store, orderId, "paid");
    }
  }

  /**
   * Consequently a pay request, successful or not, never changes what the status route answers: in
   * particular the gateway's transaction id of a just-paid order is unknown to it unless some order
   * already carried that id.
   */
  lemma StatusLookupUnaffectedByPay(store: Store, orderId: string, user: Option<User>, fx: Effects,
                                    transactionId: string, findFails: bool)
    ensures StatusLookup(Pay(store, orderId, user, fx).store, transactionId, findFails)
         == StatusLookup(store, transactionId, findFails)
  {
    PayKeepsTransactionIds(store, orderId, user, fx);
  }

  /**
   * Pay does not look at the order's status: an order already "paid" (or in any other state) is signed,
   * sent and answered exactly as before, so nothing stops a second charge.
   */
  lemma PayIgnoresOrderStatus(store: Store, orderId: string, user: Option<User>, fx: Effects, status: string)
    requires orderId in store
    ensures var store' := store[orderId := store[orderId].(status := status)];
      && Pay(store', orderId, user, fx).sent == Pay(store, orderId, user, fx).sent
      && Pay(store', orderId, user, fx).response == Pay(store, orderId, user, fx).response
  {
    var store' := store[orderId := store[orderId].(status := status)];
    if !fx.findFails && user.Some? {
      assert PayRequest(store'[orderId], user.value, fx) == PayRequest(store[orderId], user.value, fx);
    }
  }

  /**
   * An order that is already "paid" is charged again: pay still signs and sends a request for it, and a
   * second success leaves the collection exactly as it was.
   */
  lemma PaidOrderIsChargedAgain(store: Store, orderId: string, user: Option<User>, fx: Effects)
    requires orderId in store && store[orderId].status == "paid"
    requires user.Some? && !fx.findFails
    ensures Pay(store, orderId, user, fx).sent == Some(PayRequest(store[orderId], user.value, fx))
    ensures Pay(store, orderId, user, fx).response.status == StatusOk ==> Pay(store, orderId, user, fx).store == store
  {
    assert store[orderId].(status := "paid") == store[orderId];
    assert store[orderId := store[orderId]] == store;
  }

  /**
   * The pay route is mounted without `authMiddleware`: a request with no user gets 404 or 400 from it,
   * never 401, while the gate in front of it would have answered 401 and left the orders alone.
   */
  lemma PayRouteIsNotGated(store: Store, orderId: string, fx: Effects)
    ensures !IsAuthenticated(None)
    ensures Pay(store, orderId, None, fx).response.status != StatusUnauthorized
    ensures Pay(store, orderId, None, fx).response in {OrderNotFound, PaymentError}
    ensures AuthGate(IsAuthenticated(None), store,
                     (s: Store) => (Pay(s, orderId, None, fx).store, Pay(s, orderId, None, fx).response))
         == (store, Unauthorized)
  {
  }
}
