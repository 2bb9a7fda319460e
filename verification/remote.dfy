/**
 * What crosses the boundary between the routes and the outside world: the donation payload, the request
 * objects handed to the Stripe SDK and the PayPal and mailing-list helpers, the records and errors they
 * settle with, and the log entries the routes write.
 */
module Remote {
  import opened Js

  /** `request.payload` of a donation form post. */
  datatype Payload = Payload(
    amount: JsValue,
    currency: JsValue,
    email: JsValue,
    locale: JsValue,
    frequency: JsValue,
    description: JsValue,
    stripeToken: JsValue,
    signup: JsValue,
    country: JsValue)

  /** `{}`: a post without a body. */
  const EmptyPayload := Payload(Undefined, Undefined, Undefined, Undefined, Undefined,
                                Undefined, Undefined, Undefined, Undefined)

  /** `{ email, locale }` attached to every Stripe object the routes create. */
  datatype Metadata = Metadata(email: JsValue, locale: JsValue)

  /** A Stripe SDK error; `kind` is the error's `type`. */
  datatype StripeError = StripeError(code: JsValue, rawType: JsValue, kind: JsValue, param: JsValue)

  datatype CustomerRecord = CustomerRecord(id: string)
  datatype ChargeRecord = ChargeRecord(id: string, amount: int, currency: string)
  datatype Plan = Plan(currency: string)
  datatype SubscriptionRecord = SubscriptionRecord(id: string, quantity: int, plan: Plan)

  /** The objects given to `customers.create`, `charges.create` and `customers.createSubscription`. */
  datatype CustomerRequest = CustomerRequest(email: JsValue, metadata: Metadata, source: JsValue)
  datatype ChargeRequest = ChargeRequest(amount: JsValue, currency: JsValue, customer: string,
                                         description: JsValue, metadata: Metadata)
  datatype SubscriptionRequest = SubscriptionRequest(plan: JsValue, quantity: JsValue, metadata: Metadata)

  /**
   * A PayPal failure. One value stands for both what the routes log (`response.name`, `response.message`,
   * `response.details` of the callback data) and the callback's `err` that the reply wraps; in the source
   * these are two objects, which this model does not tell apart.
   */
  datatype PayPalError = PayPalError(name: JsValue, message: JsValue, details: JsValue)

  /** The sale set-up object the PayPal helper receives. */
  datatype SaleDetails = SaleDetails(amount: JsValue, currency: JsValue, locale: JsValue, itemName: JsValue,
                                     cancelUrl: string, returnUrl: string)

  /** The set-up response; `token` is its `TOKEN`. */
  datatype SaleResponse = SaleResponse(token: JsValue)

  /** The checkout details PayPal returns for a token, handed unchanged to the completion step. */
  datatype CheckoutDetails = CheckoutDetails(fields: map<string, string>)

  /** The fields of a completed PayPal transaction (`txn`) the thank-you redirect reads. */
  datatype Txn = Txn(paymentInfoTransactionId: string, paymentRequestAmt: string, payerId: string,
                     amt: string, currencyCode: string)

  /** One remote operation, with the exact object it was handed. */
  datatype Call =
    | CustomersCreate(customerRequest: CustomerRequest)
    | ChargesCreate(chargeRequest: ChargeRequest)
    | CustomersCreateSubscription(customerId: string, subscriptionRequest: SubscriptionRequest)
    | MailingListSignup(transaction: Payload)
    | SetupSingle(sale: SaleDetails)
    | SetupRecurring(sale: SaleDetails)
    | GetSingleCheckoutDetails(token: JsValue)
    | CompleteSingleCheckout(checkout: CheckoutDetails)
    | GetRecurringCheckoutDetails(token: JsValue)
    | CompleteRecurringCheckout(checkout: CheckoutDetails)

  /** A log entry: its tags, the request's correlation id, and the keys of its payload. */
  datatype LogEntry = LogEntry(tags: seq<string>, requestId: JsValue, keys: set<string>)

  /** Payment calls are the ones whose settling the route waits for; the signup is fire-and-forget. */
  function PaymentCalls(calls: seq<Call>): (p: seq<Call>)
    ensures |p| <= |calls|
    ensures forall i :: 0 <= i < |p| ==> !p[i].MailingListSignup?
  {
    if |calls| == 0 then []
    else if calls[0].MailingListSignup? then PaymentCalls(calls[1..])
    else [calls[0]] + PaymentCalls(calls[1..])
  }

  lemma {:induction false} PaymentCallsAppend(a: seq<Call>, b: seq<Call>)
    ensures PaymentCalls(a + b) == PaymentCalls(a) + PaymentCalls(b)
  {
    if |a| > 0 {
      assert (a + b)[1..] == a[1..] + b;
      PaymentCallsAppend(a[1..], b);
    } else {
      assert a + b == b;
    }
  }
}
