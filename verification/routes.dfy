/**
 * The `stripe`, `paypal` and `paypal-redirect` handlers of routes/index.js, each as one sequential step
 * function: from the request, the configuration and how each remote call settles, to the reply, the
 * trace of remote calls made (with the objects they were handed) and the log entries written.
 */
module Routes {
  import opened Outcomes
  import opened Js
  import opened Remote
  import StripeApi

  /** A post to the `stripe` or `paypal` route: its payload (absent for an empty post) and `x-request-id`. */
  datatype DonationRequest = DonationRequest(payload: Option<Payload>, requestId: JsValue)

  /** A hit on `paypal-redirect`: the `frequency` and `locale` path parameters, the `token` query field. */
  datatype RedirectRequest = RedirectRequest(frequency: Option<string>, locale: Option<string>,
                                             token: JsValue, requestId: JsValue)

  /**
   * What the routes take from their environment: the two amount modifiers (not part of this model, so
   * arbitrary functions), the server's own URI and the PayPal checkout endpoint.
   */
  datatype Config = Config(stripeAmount: (JsValue, JsValue) -> JsValue,
                           paypalAmount: (JsValue, JsValue) -> JsValue,
                           serverUri: string,
                           paypalEndpoint: JsValue)

  /** `{ code, rawType }` of a Stripe error, as sent back to the client. */
  datatype StripeDiag = StripeDiag(code: JsValue, rawType: JsValue)

  datatype Body =
    | OneTimeReceipt(frequency: string, amount: int, currency: string, id: string,
                     signup: JsValue, country: JsValue, email: JsValue)
    | MonthlyReceipt(frequency: string, currency: string, quantity: int, id: string,
                     signup: JsValue, country: JsValue, email: JsValue)
    | SaleToken(endpoint: JsValue, token: JsValue)

  /** The `data` a boom error carries. */
  datatype ErrorData = NoData | DiagData(diag: StripeDiag) | CauseData(cause: PayPalError)

  datatype Reply =
    | Json(status: int, body: Body)
      /** A boom error; `payloadStripe` is the `stripe` key added to its output payload. */
    | BoomError(status: int, message: string, payloadStripe: Option<StripeDiag>, data: ErrorData)
      /** `boom.wrap` of a PayPal failure. */
    | WrappedError(status: int, message: string, cause: PayPalError)
    | Redirect(location: string)

  /** What one handler run did. */
  datatype Handled = Handled(reply: Reply, calls: seq<Call>, logs: seq<LogEntry>)

  predicate IsError(r: Reply)
  {
    r.BoomError? || r.WrappedError?
  }

  /** The HTTP status the client sees; a redirect is hapi's default 302. */
  function StatusOf(r: Reply): int
  {
    match r
    case Json(s, _) => s
    case BoomError(s, _, _, _) => s
    case WrappedError(s, _, _) => s
    case Redirect(_) => 302
  }

  /** `request.payload || {}`. */
  function Transaction(req: DonationRequest): Payload
  {
    match req.payload
    case Some(p) => p
    case None => EmptyPayload
  }

  predicate Charged(calls: seq<Call>)
  {
    exists i :: 0 <= i < |calls| && calls[i].ChargesCreate?
  }

  predicate Subscribed(calls: seq<Call>)
  {
    exists i :: 0 <= i < |calls| && calls[i].CustomersCreateSubscription?
  }

  predicate SignedUp(calls: seq<Call>)
  {
    exists i :: 0 <= i < |calls| && calls[i].MailingListSignup?
  }

  /** The fire-and-forget signup `if (transaction.signup) signup(transaction)`. */
  function SignupCalls(t: Payload): seq<Call>
  {
    if Truthy(t.signup) then [MailingListSignup(t)] else []
  }

  const ErrorKeys := {"code", "type", "param"}

  /** The `stripe` handler. */
  function Stripe(req: DonationRequest, cfg: Config, customerSdk: StripeApi.Timed<CustomerRecord>,
                  chargeSdk: StripeApi.Timed<ChargeRecord>,
                  subscriptionSdk: StripeApi.Timed<SubscriptionRecord>): (h: Handled)
    // Customer creation always comes first, with the payer's e-mail, `{email, locale}` and the card token.
    ensures var t := Transaction(req);
      |h.calls| > 0 && h.calls[0] == CustomersCreate(CustomerRequest(t.email, Metadata(t.email, t.locale), t.stripeToken))
    // A failed customer creation ends the run: nothing else is called, and the client gets a 400 whose
    // payload holds the error's code and raw type under `stripe`.
    ensures customerSdk.result.Err? ==>
      var e := customerSdk.result.error;
      |h.calls| == 1 && h.reply == BoomError(400, "Stripe charge failed", Some(StripeDiag(e.code, e.rawType)), NoData)
    // Only the exact string "monthly" selects the subscription; anything else, absent included, a charge.
    ensures var t := Transaction(req);
      Charged(h.calls) <==> customerSdk.result.Ok? && t.frequency != Str("monthly")
    ensures var t := Transaction(req);
      Subscribed(h.calls) <==> customerSdk.result.Ok? && t.frequency == Str("monthly")
    // The charge: the modified amount, the currency, description and metadata, against the new customer.
    ensures var t := Transaction(req);
      customerSdk.result.Ok? && t.frequency != Str("monthly") ==>
        |h.calls| >= 2 && h.calls[1] == ChargesCreate(ChargeRequest(cfg.stripeAmount(t.amount, t.currency), t.currency,
                                   customerSdk.result.value.id, t.description, Metadata(t.email, t.locale)))
    // The subscription: the currency's one-cent plan, with the modified amount as its quantity.
    ensures var t := Transaction(req);
      customerSdk.result.Ok? && t.frequency == Str("monthly") ==>
        |h.calls| >= 2 && h.calls[1] == CustomersCreateSubscription(customerSdk.result.value.id,
          SubscriptionRequest(t.currency, cfg.stripeAmount(t.amount, t.currency), Metadata(t.email, t.locale)))
    // A charge: amount, currency and id come from Stripe's record, signup, country and e-mail from the request.
    ensures var t := Transaction(req);
      customerSdk.result.Ok? && t.frequency != Str("monthly") ==>
        match chargeSdk.result
        case Ok(c) => h.reply == Json(200, OneTimeReceipt("one-time", c.amount, c.currency, c.id, t.signup, t.country, t.email))
        case Err(e) => h.reply == BoomError(400, "Stripe charge failed", Some(StripeDiag(e.code, e.rawType)), NoData)
    // A subscription: currency from its plan, quantity and id from the record; a failure carries the
    // diagnostics as boom data, not under the payload's `stripe` key.
    ensures var t := Transaction(req);
      customerSdk.result.Ok? && t.frequency == Str("monthly") ==>
        match subscriptionSdk.result
        case Ok(s) => h.reply == Json(200, MonthlyReceipt("monthly", s.plan.currency, s.quantity, s.id, t.signup, t.country, t.email))
        case Err(e) => h.reply == BoomError(400, "Stripe subscription failed", None, DiagData(StripeDiag(e.code, e.rawType)))
    // The mailing-list signup fires exactly on a successful payment of a payer who asked for it.
    ensures SignedUp(h.calls) <==> h.reply.Json? && Truthy(Transaction(req).signup)
    ensures SignedUp(h.calls) ==> h.calls[|h.calls| - 1] == MailingListSignup(Transaction(req))
    // After a successful payment the only further call is the signup, fired once with the transaction.
    ensures h.reply.Json? ==> |h.calls| >= 2 && h.calls[2..] == SignupCalls(Transaction(req))
    // One log entry per settled call, tagged stripe and the operation (customer, single or recurring),
    // with `error` first when that call failed.
    ensures var rid := req.requestId;
      var customerLog := LogEntry(["stripe", "customer"], rid, {"request_id", StripeApi.CustomerServiceKey, "customer_id"});
      match customerSdk.result
      case Err(_) =>
        h.logs == [LogEntry(["error", "stripe", "customer"], rid, {"request_id", StripeApi.CustomerServiceKey} + ErrorKeys)]
      case Ok(_) =>
        if Transaction(req).frequency != Str("monthly") then
          h.logs == [customerLog,
                     if chargeSdk.result.Ok? then
                       LogEntry(["stripe", "single"], rid, {"request_id", StripeApi.ChargeServiceKey, "charge_id"})
                     else
                       LogEntry(["error", "stripe", "single"], rid,
                                {"request_id", StripeApi.ChargeServiceKey, "customer_id"} + ErrorKeys)]
        else
          h.logs == [customerLog,
                     if subscriptionSdk.result.Ok? then
                       LogEntry(["stripe", "recurring"], rid, {"request_id", StripeApi.SubscriptionServiceKey, "customer_id"})
                     else
                       LogEntry(["error", "stripe", "recurring"], rid,
                                {"request_id", StripeApi.SubscriptionServiceKey, "customer_id"} + ErrorKeys)]
  {
    var t := Transaction(req);
    var currency := t.currency;
    var amount := cfg.stripeAmount(t.amount, currency);
    var metadata := Metadata(t.email, t.locale);
    var rid := req.requestId;
    var c := StripeApi.Customer(StripeApi.CustomerInput(metadata, t.email, t.stripeToken), customerSdk);
    if c.err.Some? then
      var e := c.err.value;
      Handled(BoomError(400, "Stripe charge failed", Some(StripeDiag(e.code, e.rawType)), NoData),
              [c.call],
              [LogEntry(["error", "stripe", "customer"], rid, {"request_id", StripeApi.CustomerServiceKey} + ErrorKeys)])
    else
      var customer := c.data.record.value;
      var customerLog := LogEntry(["stripe", "customer"], rid,
                                  {"request_id", StripeApi.CustomerServiceKey, "customer_id"});
      if t.frequency != Str("monthly") then
        var s := StripeApi.Single(StripeApi.ChargeInput(amount, currency, metadata, customer, t.description), chargeSdk);
        assert [c.call, s.call][1].ChargesCreate?;
        if s.err.Some? then
          var e := s.err.value;
          Handled(BoomError(400, "Stripe charge failed", Some(StripeDiag(e.code, e.rawType)), NoData),
                  [c.call, s.call],
                  [customerLog,
                   LogEntry(["error", "stripe", "single"], rid,
                            {"request_id", StripeApi.ChargeServiceKey, "customer_id"} + ErrorKeys)])
        else
          var charge := s.data.record.value;
          var calls := [c.call, s.call] + SignupCalls(t);
          assert calls[1].ChargesCreate?;
          assert SignedUp(calls) <==> Truthy(t.signup) by {
            if Truthy(t.signup) { assert calls[2].MailingListSignup?; }
          }
          Handled(Json(200, OneTimeReceipt("one-time", charge.amount, charge.currency, charge.id,
                                           t.signup, t.country, t.email)),
                  calls,
                  [customerLog,
                   LogEntry(["stripe", "single"], rid, {"request_id", StripeApi.ChargeServiceKey, "charge_id"})])
      else
        var r := StripeApi.Recurring(StripeApi.SubscriptionInput(currency, metadata, customer, amount,
                                                                 t.stripeToken, t.email), subscriptionSdk);
        assert [c.call, r.call][1].CustomersCreateSubscription?;
        if r.err.Some? then
          var e := r.err.value;
          Handled(BoomError(400, "Stripe subscription failed", None, DiagData(StripeDiag(e.code, e.rawType))),
                  [c.call, r.call],
                  [customerLog,
                   LogEntry(["error", "stripe", "recurring"], rid,
                            {"request_id", StripeApi.SubscriptionServiceKey, "customer_id"} + ErrorKeys)])
        else
          var subscription := r.data.record.value;
          var calls := [c.call, r.call] + SignupCalls(t);
          assert calls[1].CustomersCreateSubscription?;
          assert SignedUp(calls) <==> Truthy(t.signup) by {
            if Truthy(t.signup) { assert calls[2].MailingListSignup?; }
          }
          Handled(Json(200, MonthlyReceipt("monthly", subscription.plan.currency, subscription.quantity,
                                           subscription.id, t.signup, t.country, t.email)),
                  calls,
                  [customerLog,
                   LogEntry(["stripe", "recurring"], rid,
                            {"request_id", StripeApi.SubscriptionServiceKey, "customer_id"})])
  }

  /** The URL PayPal sends the payer back to: it carries the frequency and locale as path segments. */
  function ReturnUrl(serverUri: string, frequency: string, locale: string): string
  {
    serverUri + "/api/paypal-redirect/" + frequency + "/" + locale + "/"
  }

  const SaleKey := "paypal_request_sale_service"
  const PayPalErrorKeys := {"error_name", "error_message", "details"}

  /** The `paypal` handler: sets up a PayPal sale or billing agreement and returns its token. */
  function PayPal(req: DonationRequest, cfg: Config, setup: Result<SaleResponse, PayPalError>): (h: Handled)
    // One set-up call; the recurring one exactly when the frequency is the string "monthly".
    ensures |h.calls| == 1 && (h.calls[0].SetupSingle? || h.calls[0].SetupRecurring?)
    ensures h.calls[0].SetupRecurring? <==> Transaction(req).frequency == Str("monthly")
    // The sale object: the modified amount, currency, locale and description, and the two URLs, the
    // return URL carrying the frequency (empty when absent) and the locale as path segments.
    ensures var t := Transaction(req);
      h.calls[0].sale == SaleDetails(cfg.paypalAmount(t.amount, t.currency), t.currency, t.locale, t.description,
                                     cfg.serverUri + "/",
                                     ReturnUrl(cfg.serverUri, ToStr(Or(t.frequency, Str(""))), ToStr(t.locale)))
    // One log entry tagged paypal, sale, recurring or single, and error last when the set-up failed.
    ensures var kind := if Transaction(req).frequency == Str("monthly") then "recurring" else "single";
      |h.logs| == 1 && h.logs[0].tags == ["paypal", "sale", kind] + (if setup.Err? then ["error"] else [])
    // The entry carries the correlation id and the duration key, plus PayPal's diagnostics on failure.
    ensures h.logs[0].requestId == req.requestId
    ensures h.logs[0].keys == {"request_id", SaleKey} + (if setup.Err? then PayPalErrorKeys else {})
    ensures setup.Err? ==> h.reply == WrappedError(500, "Paypal donation failed", setup.error)
    ensures setup.Ok? ==> h.reply == Json(200, SaleToken(cfg.paypalEndpoint, setup.value.token))
  {
    var t := Transaction(req);
    var frequency := Or(t.frequency, Str(""));
    var currency := t.currency;
    var amount := cfg.paypalAmount(t.amount, currency);
    var details := SaleDetails(amount, currency, t.locale, t.description, cfg.serverUri + "/",
                               cfg.serverUri + "/api/paypal-redirect/" + ToStr(frequency) + "/" + ToStr(t.locale) + "/");
    var rid := req.requestId;
    var tags := ["paypal", "sale"] + [if frequency == Str("monthly") then "recurring" else "single"];
    var call := if frequency != Str("monthly") then SetupSingle(details) else SetupRecurring(details);
    match setup
    case Err(e) =>
      Handled(WrappedError(500, "Paypal donation failed", e), [call],
              [LogEntry(tags + ["error"], rid, {"request_id", SaleKey} + PayPalErrorKeys)])
    case Ok(response) =>
      Handled(Json(200, SaleToken(cfg.paypalEndpoint, response.token)), [call],
              [LogEntry(tags, rid, {"request_id", SaleKey})])
  }

  /** `locale` after `params.locale || ''` and the leading '/' added to a non-empty one. */
  function LocalePrefix(locale: Option<string>): (p: string)
    ensures p == "" <==> locale.None? || locale == Some("")
    ensures p != "" ==> p == "/" + locale.value
  {
    var l := if locale.Some? then locale.value else "";
    if l != "" then "/" + l else l
  }

  /** `params.frequency || 'single'`. */
  function RedirectFrequency(frequency: Option<string>): (f: string)
    ensures f != ""
    ensures frequency.None? || frequency == Some("") ==> f == "single"
    ensures f == "monthly" <==> frequency == Some("monthly")
    ensures frequency.Some? && frequency.value != "" ==> f == frequency.value
  {
    if frequency.Some? && frequency.value != "" then frequency.value else "single"
  }

  /** The thank-you page the payer lands on after a completed PayPal donation. */
  function ThankYouUrl(localePrefix: string, frequency: string, tx: string, amt: string, cc: string): string
  {
    localePrefix + "/thank-you/?frequency=" + frequency + "&tx=" + tx + "&amt=" + amt + "&cc=" + cc
  }

  /** The id of a recurring donation: the payer id followed by the text of `Date.now() / 100`. */
  function RecurringTxId(payerId: string, now: nat): string
  {
    payerId + HundredthsText(now)
  }

  const DetailsKey := "paypal_checkout_details_service"
  const PaymentKey := "paypal_checkout_payment_service"

  /**
   * The `paypal-redirect` handler: after the payer returns from PayPal, fetches the checkout details for
   * the token, completes the checkout with them, and redirects to the thank-you page. `now` is `Date.now()`.
   */
  function PayPalRedirect(req: RedirectRequest, details: Result<CheckoutDetails, PayPalError>,
                          complete: Result<Txn, PayPalError>, now: nat): (h: Handled)
    // The details are fetched first, for the token, by the recurring variant exactly for "monthly".
    ensures |h.calls| > 0
    ensures h.calls[0] == if req.frequency == Some("monthly") then GetRecurringCheckoutDetails(req.token)
                          else GetSingleCheckoutDetails(req.token)
    // A failed details fetch is a 400 wrapping the error; the checkout is never completed.
    ensures details.Err? ==>
      && h.calls == [h.calls[0]]
      && h.reply == BoomError(400, "donation failed", None, CauseData(details.error))
      && h.logs == [LogEntry(["error", "paypal", "checkout-details", RedirectFrequency(req.frequency)], req.requestId,
                             {"request_id", DetailsKey} + PayPalErrorKeys)]
    // Otherwise the completion step gets exactly the fetched details.
    ensures details.Ok? ==>
      |h.calls| == 2 && h.calls[1] == if req.frequency == Some("monthly") then CompleteRecurringCheckout(details.value)
                                     else CompleteSingleCheckout(details.value)
    // Once the details came back, the first entry logs that fetch and the second the completion, tagged
    // checkout on success and error, checkout-payment on failure.
    ensures details.Ok? ==>
      var f := RedirectFrequency(req.frequency);
      h.logs == [LogEntry(["paypal", "checkout-details", f], req.requestId, {"request_id", DetailsKey}),
                 if complete.Ok? then LogEntry(["paypal", "checkout", f], req.requestId, {"request_id", PaymentKey})
                 else LogEntry(["error", "paypal", "checkout-payment", f], req.requestId,
                               {"request_id", PaymentKey} + PayPalErrorKeys)]
    ensures details.Ok? && complete.Err? ==>
      h.reply == BoomError(400, "donation failed", None, CauseData(complete.error))
    // Success redirects to the thank-you page with frequency, transaction id, amount and currency code;
    // a recurring donation's id is synthesised from the payer id and the clock.
    ensures details.Ok? && complete.Ok? ==>
      var txn := complete.value;
      var monthly := req.frequency == Some("monthly");
      h.reply == Redirect(ThankYouUrl(LocalePrefix(req.locale), RedirectFrequency(req.frequency),
                                      if monthly then RecurringTxId(txn.payerId, now) else txn.paymentInfoTransactionId,
                                      if monthly then txn.amt else txn.paymentRequestAmt,
                                      txn.currencyCode))
  {
    var locale := LocalePrefix(req.locale);
    var frequency := RedirectFrequency(req.frequency);
    var rid := req.requestId;
    var fetch := if frequency != "monthly" then GetSingleCheckoutDetails(req.token)
                 else GetRecurringCheckoutDetails(req.token);
    match details
    case Err(e) =>
      Handled(BoomError(400, "donation failed", None, CauseData(e)), [fetch],
              [LogEntry(["error", "paypal", "checkout-details", frequency], rid, {"request_id", DetailsKey} + PayPalErrorKeys)])
    case Ok(checkout) =>
      var detailsLog := LogEntry(["paypal", "checkout-details", frequency], rid, {"request_id", DetailsKey});
      var finish := if frequency != "monthly" then CompleteSingleCheckout(checkout)
                    else CompleteRecurringCheckout(checkout);
      match complete
      case Err(e) =>
        Handled(BoomError(400, "donation failed", None, CauseData(e)), [fetch, finish],
                [detailsLog,
                 LogEntry(["error", "paypal", "checkout-payment", frequency], rid, {"request_id", PaymentKey} + PayPalErrorKeys)])
      case Ok(txn) =>
        var url := if frequency != "monthly" then
                     ThankYouUrl(locale, frequency, txn.paymentInfoTransactionId, txn.paymentRequestAmt, txn.currencyCode)
                   else
                     ThankYouUrl(locale, frequency, RecurringTxId(txn.payerId, now), txn.amt, txn.currencyCode);
        Handled(Redirect(url), [fetch, finish],
                [detailsLog, LogEntry(["paypal", "checkout", frequency], rid, {"request_id", PaymentKey})])
  }
}
