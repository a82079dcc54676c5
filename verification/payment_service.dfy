/** The payment service of payment-service-backend: the payments table, the
    row written when an `order.created` event arrives, the charge requested for
    a payment, and the success flag set once the gateway confirms payment.
    The service's own request schema is not part of this model: a payload is
    `Some(orderId)` when that schema accepts it and `None` otherwise. */
module PaymentService {
  import opened Common

  /** A payments row, keyed by orderId. */
  datatype Payment = Payment(buyerId: int, total: int, isPaymentSuccessfull: bool)

  /** The payments table after the row of orderId has its success flag set. */
  function MarkSucceeded(payments: map<string, Payment>, orderId: string): (r: map<string, Payment>)
    requires orderId in payments
    ensures r.Keys == payments.Keys
    ensures r[orderId].isPaymentSuccessfull
    ensures r[orderId].buyerId == payments[orderId].buyerId && r[orderId].total == payments[orderId].total
    ensures forall k :: k in payments && k != orderId ==> r[k] == payments[k]
  {
    payments[orderId := payments[orderId].(isPaymentSuccessfull := true)]
  }

  /** Confirming a payment twice is the same as confirming it once. */
  lemma MarkSucceededIdempotent(payments: map<string, Payment>, orderId: string)
    requires orderId in payments
    ensures MarkSucceeded(MarkSucceeded(payments, orderId), orderId) == MarkSucceeded(payments, orderId)
  {
  }

  /** paymentHandler, over the payments table of the ledger, which it reads and
      does not change: an accepted payload naming a stored payment yields a
      charge of total * 100 in "inr"; an unknown order, or a missing gateway
      key, gives 404 and no charge. */
  function ChargeFor(payments: map<string, Payment>, payload: Option<string>, hasStripeKey: bool): (r: ChargeReply)
    ensures r.status == 200 <==> payload.Some? && payload.value in payments && hasStripeKey
    ensures r.charge.Some? <==> r.status == 200
    ensures r.charge.Some? ==> r.charge.value == Charge(payments[payload.value].total * 100, "inr")
    ensures payload.None? ==> r.status == 400
    ensures payload.Some? && payload.value !in payments ==> r.status == 404
    ensures payload.Some? && payload.value in payments && !hasStripeKey ==> r.status == 404
  {
    if payload.None? then ChargeReply(400, None)
    else if payload.value !in payments then ChargeReply(404, None)
    else if !hasStripeKey then ChargeReply(404, None)
    else ChargeReply(200, Some(Charge(payments[payload.value].total * 100, "inr")))
  }

  /** The charge handler does not look at the success flag: after a payment is
      confirmed, a new request for the same order asks for the same charge. */
  lemma ChargeIgnoresSuccessFlag(payments: map<string, Payment>, orderId: string,
                                 payload: Option<string>, hasStripeKey: bool)
    requires orderId in payments
    ensures ChargeFor(MarkSucceeded(payments, orderId), payload, hasStripeKey) == ChargeFor(payments, payload, hasStripeKey)
  {
  }

  class PaymentLedger {
    var payments: map<string, Payment>

    constructor ()
      ensures payments == map[]
    {
      payments := map[];
    }

    /** The `order.created` subscriber: a new row with the success flag unset.
        A second event for the same orderId fails the unique key and is only
        logged, so the first row stays. */
    method RecordOrderCreated(orderId: string, buyerId: int, total: int)
      modifies this
      ensures orderId in old(payments) ==> payments == old(payments)
      ensures orderId !in old(payments) ==> payments == old(payments)[orderId := Payment(buyerId, total, false)]
    {
      if orderId !in payments {
        payments := payments[orderId := Payment(buyerId, total, false)];
      }
    }

    /** paymentSuccess: an invalid payload gives 400 before any lookup; an
        unknown orderId makes the update fail (500); otherwise the row's success
        flag is set and nothing else changes. */
    method PaymentSuccess(payload: Option<string>) returns (status: int)
      modifies this
      ensures payload.None? ==> status == 400 && payments == old(payments)
      ensures payload.Some? && payload.value !in old(payments) ==> status == 500 && payments == old(payments)
      ensures payload.Some? && payload.value in old(payments) ==>
        status == 200 && payments == MarkSucceeded(old(payments), payload.value)
    {
      if payload.None? {
        return 400;
      }
      var orderId := payload.value;
      if orderId !in payments {
        return 500;
      }
      payments := payments[orderId := payments[orderId].(isPaymentSuccessfull := true)];
      status := 200;
    }
  }
}
