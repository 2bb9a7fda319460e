/**
 * The three Stripe wrappers of routes/stripe.js. Each builds the SDK request object from the route's
 * transaction, makes one SDK call (its settling and its measured duration are inputs here), and hands its
 * callback an error and a data object keyed by the wrapper's own duration key.
 */
module StripeApi {
  import opened Outcomes
  import opened Js
  import opened Remote

  const CustomerServiceKey := "stripe_customer_create_service"
  const ChargeServiceKey := "stripe_charge_create_service"
  const SubscriptionServiceKey := "stripe_create_subscription_service"

  /** How an SDK call settled, with the milliseconds it took. */
  datatype Timed<+T> = Timed(result: Result<T, StripeError>, ms: int)

  /** What the route hands each wrapper. */
  datatype CustomerInput = CustomerInput(metadata: Metadata, email: JsValue, stripeToken: JsValue)
  datatype ChargeInput = ChargeInput(amount: JsValue, currency: JsValue, metadata: Metadata,
                                     customer: CustomerRecord, description: JsValue)
  datatype SubscriptionInput = SubscriptionInput(currency: JsValue, metadata: Metadata, customer: CustomerRecord,
                                                 quantity: JsValue, stripeToken: JsValue, email: JsValue)

  /** The data object a wrapper passes its callback: which keys it has, the duration, the record if any. */
  datatype CallbackData<+T> = CallbackData(keys: set<string>, duration: int, record: Option<T>)

  /** A wrapper's run: the SDK call it made and the two callback arguments. */
  datatype Settled<+T> = Settled(call: Call, err: Option<StripeError>, data: CallbackData<T>)

  /** `stripe.customer`. */
  function Customer(t: CustomerInput, sdk: Timed<CustomerRecord>): (s: Settled<CustomerRecord>)
    // exactly email, metadata and the card token as `source`
    ensures s.call == CustomersCreate(CustomerRequest(t.email, t.metadata, t.stripeToken))
    ensures s.data.duration == sdk.ms
    ensures s.err.Some? <==> sdk.result.Err?
    ensures sdk.result.Err? ==> s.err == Some(sdk.result.error) && s.data.keys == {CustomerServiceKey}
                                && s.data.record.None?
    ensures sdk.result.Ok? ==> s.data.record == Some(sdk.result.value)
                               && s.data.keys == {CustomerServiceKey, "customer"}
  {
    var call := CustomersCreate(CustomerRequest(t.email, t.metadata, t.stripeToken));
    match sdk.result
    case Err(e) => Settled(call, Some(e), CallbackData({CustomerServiceKey}, sdk.ms, None))
    case Ok(c) => Settled(call, None, CallbackData({CustomerServiceKey, "customer"}, sdk.ms, Some(c)))
  }

  /** `stripe.single`. */
  function Single(t: ChargeInput, sdk: Timed<ChargeRecord>): (s: Settled<ChargeRecord>)
    // amount, currency, description and metadata unchanged; the customer by its id
    ensures s.call == ChargesCreate(ChargeRequest(t.amount, t.currency, t.customer.id, t.description, t.metadata))
    ensures s.data.duration == sdk.ms
    ensures s.err.Some? <==> sdk.result.Err?
    ensures sdk.result.Err? ==> s.err == Some(sdk.result.error) && s.data.keys == {ChargeServiceKey}
                                && s.data.record.None?
    ensures sdk.result.Ok? ==> s.data.record == Some(sdk.result.value)
                               && s.data.keys == {ChargeServiceKey, "charge"}
  {
    var call := ChargesCreate(ChargeRequest(t.amount, t.currency, t.customer.id, t.description, t.metadata));
    match sdk.result
    case Err(e) => Settled(call, Some(e), CallbackData({ChargeServiceKey}, sdk.ms, None))
    case Ok(c) => Settled(call, None, CallbackData({ChargeServiceKey, "charge"}, sdk.ms, Some(c)))
  }

  /**
   * `stripe.recurring`. The plan is the currency code (a one-cent plan per currency) and the donation is
   * its quantity. Unlike the other two wrappers, the callback always gets both the error and the
   * `subscription` key, which is empty when the call failed.
   */
  function Recurring(t: SubscriptionInput, sdk: Timed<SubscriptionRecord>): (s: Settled<SubscriptionRecord>)
    ensures s.call == CustomersCreateSubscription(t.customer.id, SubscriptionRequest(t.currency, t.quantity, t.metadata))
    ensures s.data.duration == sdk.ms
    ensures s.data.keys == {SubscriptionServiceKey, "subscription"}
    ensures s.err.Some? <==> sdk.result.Err?
    ensures sdk.result.Err? ==> s.err == Some(sdk.result.error) && s.data.record.None?
    ensures sdk.result.Ok? ==> s.data.record == Some(sdk.result.value)
  {
    var call := CustomersCreateSubscription(t.customer.id, SubscriptionRequest(t.currency, t.quantity, t.metadata));
    var record := if sdk.result.Ok? then Some(sdk.result.value) else None;
    var err := if sdk.result.Err? then Some(sdk.result.error) else None;
    Settled(call, err, CallbackData({SubscriptionServiceKey, "subscription"}, sdk.ms, record))
  }

  /** How the route reads a wrapper's callback: the error if there is one, otherwise the record. */
  function Received<T>(s: Settled<T>): Option<Result<T, StripeError>>
  {
    match s.err
    case Some(e) => Some(Err(e))
    case None => if s.data.record.Some? then Some(Ok(s.data.record.value)) else None
  }

  /** No wrapper loses or invents an outcome: the route reads back exactly how the SDK call settled. */
  lemma ReceivedIsSdkResult(c: CustomerInput, cs: Timed<CustomerRecord>, g: ChargeInput, gs: Timed<ChargeRecord>,
                            r: SubscriptionInput, rs: Timed<SubscriptionRecord>)
    ensures Received(Customer(c, cs)) == Some(cs.result)
    ensures Received(Single(g, gs)) == Some(gs.result)
    ensures Received(Recurring(r, rs)) == Some(rs.result)
  {
  }

  /** Each wrapper records its duration under its own key, on success and on failure alike. */
  lemma DurationUnderOwnKey(c: CustomerInput, cs: Timed<CustomerRecord>, g: ChargeInput, gs: Timed<ChargeRecord>,
                            r: SubscriptionInput, rs: Timed<SubscriptionRecord>)
    ensures var k := Customer(c, cs).data.keys;
      CustomerServiceKey in k && ChargeServiceKey !in k && SubscriptionServiceKey !in k
    ensures var k := Single(g, gs).data.keys;
      ChargeServiceKey in k && CustomerServiceKey !in k && SubscriptionServiceKey !in k
    ensures var k := Recurring(r, rs).data.keys;
      SubscriptionServiceKey in k && CustomerServiceKey !in k && ChargeServiceKey !in k
    ensures Customer(c, cs).data.duration == cs.ms && Single(g, gs).data.duration == gs.ms
            && Recurring(r, rs).data.duration == rs.ms
  {
  }
}
