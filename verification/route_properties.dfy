/**
 * Properties that relate the handlers of routes/index.js to independent references: the
 * abort-at-first-failure discipline of module Flow, the logging discipline shared by all routes, the
 * reading of the return and thank-you URLs, and the uniqueness of synthesised transaction ids.
 */
module RouteProperties {
  import opened Outcomes
  import opened Js
  import opened Text
  import opened Flow
  import opened Remote
  import StripeApi
  import opened Routes

  /** Where a route puts the `error` tag in the entry of a failed call: first (`stripe`, `paypal-redirect`) or last (`paypal`). */
  datatype ErrorMark = FirstTag | LastTag

  predicate Flagged(e: LogEntry, mark: ErrorMark)
  {
    |e.tags| > 0 && match mark
                    case FirstTag => e.tags[0] == "error"
                    case LastTag => e.tags[|e.tags| - 1] == "error"
  }

  /** The provider a payment call's log entry names. */
  function ProviderTag(c: Call): string
  {
    if c.CustomersCreate? || c.ChargesCreate? || c.CustomersCreateSubscription? then "stripe" else "paypal"
  }

  /** The operation a payment call's log entry names; a checkout completion is named differently when it failed. */
  function OperationTag(c: Call, failed: bool): string
  {
    match c
    case CustomersCreate(_) => "customer"
    case ChargesCreate(_) => "single"
    case CustomersCreateSubscription(_, _) => "recurring"
    case MailingListSignup(_) => "signup"
    case SetupSingle(_) => "sale"
    case SetupRecurring(_) => "sale"
    case GetSingleCheckoutDetails(_) => "checkout-details"
    case GetRecurringCheckoutDetails(_) => "checkout-details"
    case CompleteSingleCheckout(_) => if failed then "checkout-payment" else "checkout"
    case CompleteRecurringCheckout(_) => if failed then "checkout-payment" else "checkout"
  }

  /**
   * The i-th log entry belongs to the i-th payment call: it carries the request's correlation id and
   * names that call's provider and operation. Only the entry of a failed final call carries the error
   * mark, and it does exactly when the reply is an error.
   */
  predicate WellLogged(h: Handled, requestId: JsValue, mark: ErrorMark)
  {
    var calls := PaymentCalls(h.calls);
    && |h.logs| == |calls|
    && |h.logs| > 0
    && (forall i :: 0 <= i < |h.logs| ==>
          && h.logs[i].requestId == requestId
          && "request_id" in h.logs[i].keys
          && ProviderTag(calls[i]) in h.logs[i].tags
          && OperationTag(calls[i], i == |h.logs| - 1 && IsError(h.reply)) in h.logs[i].tags)
    && (forall i :: 0 <= i < |h.logs| - 1 ==> !Flagged(h.logs[i], mark))
    && (IsError(h.reply) <==> Flagged(h.logs[|h.logs| - 1], mark))
  }

  /** The success of each planned step of the `stripe` route: the customer, then the charge or subscription. */
  function StripeSteps(req: DonationRequest, customerSdk: StripeApi.Timed<CustomerRecord>,
                       chargeSdk: StripeApi.Timed<ChargeRecord>,
                       subscriptionSdk: StripeApi.Timed<SubscriptionRecord>): seq<bool>
  {
    var monthly := Transaction(req).frequency == Str("monthly");
    [customerSdk.result.Ok?, if monthly then subscriptionSdk.result.Ok? else chargeSdk.result.Ok?]
  }

  /** The mailing-list signup is not a payment call. */
  lemma SignupIsNoPayment(t: Payload)
    ensures PaymentCalls(SignupCalls(t)) == []
  {
    if Truthy(t.signup) {
      assert SignupCalls(t)[1..] == [];
    }
  }

  /** The `stripe` route runs its steps in order, stops at the first failure, and reports it. */
  lemma StripeStopsAtFirstFailure(req: DonationRequest, cfg: Config, customerSdk: StripeApi.Timed<CustomerRecord>,
                                  chargeSdk: StripeApi.Timed<ChargeRecord>,
                                  subscriptionSdk: StripeApi.Timed<SubscriptionRecord>)
    ensures var h := Stripe(req, cfg, customerSdk, chargeSdk, subscriptionSdk);
      var ok := StripeSteps(req, customerSdk, chargeSdk, subscriptionSdk);
      && |PaymentCalls(h.calls)| == Performed(ok)
      && (IsError(h.reply) <==> Failed(ok))
      && StatusOf(h.reply) == (if Failed(ok) then 400 else 200)
  {
    var h := Stripe(req, cfg, customerSdk, chargeSdk, subscriptionSdk);
    var ok := StripeSteps(req, customerSdk, chargeSdk, subscriptionSdk);
    assert ok[1..] == [ok[1]];
    StripePaymentCalls(req, cfg, customerSdk, chargeSdk, subscriptionSdk);
    if ok[0] {
      assert [ok[1]][1..] == [];
      if ok[1] {
        assert !Failed(ok);
      } else {
        assert !ok[1];
      }
    } else {
      assert !ok[0];
    }
  }

  /** The payment calls of the `stripe` route: the customer, then the charge or subscription when it was created. */
  lemma StripePaymentCalls(req: DonationRequest, cfg: Config, customerSdk: StripeApi.Timed<CustomerRecord>,
                           chargeSdk: StripeApi.Timed<ChargeRecord>,
                           subscriptionSdk: StripeApi.Timed<SubscriptionRecord>)
    ensures var h := Stripe(req, cfg, customerSdk, chargeSdk, subscriptionSdk);
      PaymentCalls(h.calls) == h.calls[..if customerSdk.result.Ok? then 2 else 1]
  {
    var h := Stripe(req, cfg, customerSdk, chargeSdk, subscriptionSdk);
    if customerSdk.result.Ok? {
      var head := h.calls[..2];
      assert h.calls == head + h.calls[2..];
      PaymentCallsAppend(head, h.calls[2..]);
      assert head[1..][1..] == [];
      SignupIsNoPayment(Transaction(req));
    } else {
      assert h.calls[1..] == [];
    }
  }

  /** Each payment call of the `stripe` route is logged once, in order, with `error` first on a failed one. */
  lemma StripeWellLogged(req: DonationRequest, cfg: Config, customerSdk: StripeApi.Timed<CustomerRecord>,
                         chargeSdk: StripeApi.Timed<ChargeRecord>,
                         subscriptionSdk: StripeApi.Timed<SubscriptionRecord>)
    ensures WellLogged(Stripe(req, cfg, customerSdk, chargeSdk, subscriptionSdk), req.requestId, FirstTag)
  {
    StripePaymentCalls(req, cfg, customerSdk, chargeSdk, subscriptionSdk);
  }

  /** The `paypal` route makes one call, logs it once, and replies 500 exactly when it failed. */
  lemma PayPalWellLogged(req: DonationRequest, cfg: Config, setup: Result<SaleResponse, PayPalError>)
    ensures var h := PayPal(req, cfg, setup);
      && WellLogged(h, req.requestId, LastTag)
      && StatusOf(h.reply) == (if setup.Err? then 500 else 200)
  {
  }

  /**
   * The redirect route tags its log entries with the frequency taken from the URL path, so a path whose
   * frequency segment is "error" makes even a completed donation's entries carry the `error` tag.
   */
  lemma RedirectFrequencyCanForgeErrorTag(req: RedirectRequest, checkout: CheckoutDetails, txn: Txn, now: nat)
    requires req.frequency == Some("error")
    ensures var h := PayPalRedirect(req, Ok(checkout), Ok(txn), now);
      !IsError(h.reply) && forall i :: 0 <= i < |h.logs| ==> "error" in h.logs[i].tags
  {
  }

  /** The `paypal-redirect` route: details, then completion only if the details came back; one log per call. */
  lemma RedirectStopsAtFirstFailure(req: RedirectRequest, details: Result<CheckoutDetails, PayPalError>,
                                    complete: Result<Txn, PayPalError>, now: nat)
    ensures var h := PayPalRedirect(req, details, complete, now);
      var ok := [details.Ok?, complete.Ok?];
      && |PaymentCalls(h.calls)| == Performed(ok)
      && (IsError(h.reply) <==> Failed(ok))
      && StatusOf(h.reply) == (if Failed(ok) then 400 else 302)
      && WellLogged(h, req.requestId, FirstTag)
  {
  }

  /**
   * How hapi matches the return URL against `/api/paypal-redirect/{frequency}/{locale}/`: the two path
   * segments after the route prefix, or nothing when the URL does not have that shape.
   */
  function ReturnRouteParams(serverUri: string, url: string): Option<(string, string)>
  {
    var prefix := serverUri + "/api/paypal-redirect/";
    if |prefix| <= |url| && url[..|prefix|] == prefix then
      var segments := Split(url[|prefix|..], '/');
      if |segments| == 3 && segments[2] == "" then Some((segments[0], segments[1])) else None
    else
      None
  }

  /** The return URL hands back exactly the frequency and locale it was built from, when neither holds a '/'. */
  lemma ReturnUrlRoundTrip(serverUri: string, frequency: string, locale: string)
    requires '/' !in frequency && '/' !in locale
    ensures ReturnRouteParams(serverUri, ReturnUrl(serverUri, frequency, locale)) == Some((frequency, locale))
  {
    var prefix := serverUri + "/api/paypal-redirect/";
    var url := ReturnUrl(serverUri, frequency, locale);
    var rest := frequency + "/" + locale + "/";
    assert url == prefix + rest;
    assert url[..|prefix|] == prefix;
    assert url[|prefix|..] == rest;
    assert rest == Join([frequency, locale, ""], '/') by {
      assert [frequency, locale, ""][1..] == [locale, ""];
      assert [locale, ""][1..] == [""];
      assert Join([""], '/') == "";
      assert Join([locale, ""], '/') == locale + "/";
      assert Join([frequency, locale, ""], '/') == frequency + "/" + (locale + "/");
    }
    SplitJoin([frequency, locale, ""], '/');
  }

  /**
   * The set-up and the return agree on the flow: when the payer comes back through the return URL the
   * `paypal` route built, `paypal-redirect` takes the recurring path exactly when the set-up did.
   */
  lemma SetupAndRedirectAgree(req: DonationRequest, cfg: Config, setup: Result<SaleResponse, PayPalError>,
                              token: JsValue, details: Result<CheckoutDetails, PayPalError>,
                              complete: Result<Txn, PayPalError>, now: nat)
    requires var t := Transaction(req);
      '/' !in ToStr(Or(t.frequency, Str(""))) && '/' !in ToStr(t.locale)
    ensures var t := Transaction(req);
      var p := PayPal(req, cfg, setup);
      var f := ToStr(Or(t.frequency, Str("")));
      var l := ToStr(t.locale);
      && ReturnRouteParams(cfg.serverUri, p.calls[0].sale.returnUrl) == Some((f, l))
      && var r := PayPalRedirect(RedirectRequest(Some(f), Some(l), token, req.requestId), details, complete, now);
         && (r.calls[0].GetRecurringCheckoutDetails? <==> p.calls[0].SetupRecurring?)
         && (RedirectFrequency(Some(f)) == "monthly" <==> p.logs[0].tags[2] == "recurring")
  {
    var t := Transaction(req);
    var f := ToStr(Or(t.frequency, Str("")));
    var l := ToStr(t.locale);
    ReturnUrlRoundTrip(cfg.serverUri, f, l);
    ToStrMonthly(Or(t.frequency, Str("")));
  }

  /** A payload without a locale sends the payer back to a path whose locale segment is "undefined". */
  lemma MissingLocaleReturnsUndefined(req: DonationRequest, cfg: Config, setup: Result<SaleResponse, PayPalError>)
    requires Transaction(req).locale == Undefined
    ensures var p := PayPal(req, cfg, setup);
      var f := ToStr(Or(Transaction(req).frequency, Str("")));
      '/' !in f ==> ReturnRouteParams(cfg.serverUri, p.calls[0].sale.returnUrl) == Some((f, "undefined"))
  {
    var f := ToStr(Or(Transaction(req).frequency, Str("")));
    if '/' !in f {
      ReturnUrlRoundTrip(cfg.serverUri, f, "undefined");
    }
  }

  /** The query of `page?f1&f2&...` reads as the fields' `key=value` pairs when the page has no '?'. */
  lemma {:induction false} QueryOfJoin(page: string, fields: seq<string>)
    requires '?' !in page && |fields| > 0 && NoSep(fields, '&')
    ensures QueryParams(page + ['?'] + Join(fields, '&'))
            == seq(|fields|, i requires 0 <= i < |fields| => Cut(fields[i], '='))
  {
    CutAt(page, Join(fields, '&'), '?');
    SplitJoin(fields, '&');
  }

  lemma Join4(a: string, b: string, c: string, d: string, sep: char)
    ensures Join([a, b, c, d], sep) == a + [sep] + b + [sep] + c + [sep] + d
  {
    assert [a, b, c, d][1..] == [b, c, d];
    assert [b, c, d][1..] == [c, d];
    assert [c, d][1..] == [d];
    assert Join([c, d], sep) == c + [sep] + d;
    assert Join([b, c, d], sep) == b + [sep] + (c + [sep] + d);
    assert Join([a, b, c, d], sep) == a + [sep] + (b + [sep] + (c + [sep] + d));
  }

  /** The `key=value` text of one query parameter. */
  function Field(key: string, value: string): string
  {
    key + "=" + value
  }

  lemma ThankYouUrlShape(localePrefix: string, frequency: string, tx: string, amt: string, cc: string)
    ensures ThankYouUrl(localePrefix, frequency, tx, amt, cc)
            == (localePrefix + "/thank-you/") + ['?']
               + Join([Field("frequency", frequency), Field("tx", tx), Field("amt", amt), Field("cc", cc)], '&')
  {
    Join4(Field("frequency", frequency), Field("tx", tx), Field("amt", amt), Field("cc", cc), '&');
  }

  lemma FieldCut(key: string, value: string)
    requires '=' !in key
    ensures Cut(Field(key, value), '=') == (key, value)
  {
    assert Field(key, value) == key + ['='] + value;
    CutAt(key, value, '=');
  }

  /** The thank-you URL's query holds exactly the four values, in order, when none of them holds a '&'. */
  lemma ThankYouQuery(localePrefix: string, frequency: string, tx: string, amt: string, cc: string)
    requires '?' !in localePrefix
    requires '&' !in frequency && '&' !in tx && '&' !in amt && '&' !in cc
    ensures QueryParams(ThankYouUrl(localePrefix, frequency, tx, amt, cc))
            == [("frequency", frequency), ("tx", tx), ("amt", amt), ("cc", cc)]
  {
    var fields := [Field("frequency", frequency), Field("tx", tx), Field("amt", amt), Field("cc", cc)];
    var page := localePrefix + "/thank-you/";
    ThankYouUrlShape(localePrefix, frequency, tx, amt, cc);
    assert '?' !in page;
    assert NoSep(fields, '&');
    QueryOfJoin(page, fields);
    FieldCut("frequency", frequency);
    FieldCut("tx", tx);
    FieldCut("amt", amt);
    FieldCut("cc", cc);
  }

  /** After a completed donation the redirect carries the frequency, transaction id, amount and currency code. */
  lemma RedirectCarriesTransaction(req: RedirectRequest, details: Result<CheckoutDetails, PayPalError>,
                                   txn: Txn, now: nat)
    requires details.Ok?
    requires req.locale.Some? ==> '?' !in req.locale.value
    requires req.frequency.Some? ==> '&' !in req.frequency.value
    requires '&' !in txn.paymentInfoTransactionId && '&' !in txn.paymentRequestAmt && '&' !in txn.payerId
    requires '&' !in txn.amt && '&' !in txn.currencyCode
    ensures var h := PayPalRedirect(req, details, Ok(txn), now);
      var monthly := req.frequency == Some("monthly");
      h.reply.Redirect? && QueryParams(h.reply.location)
        == [("frequency", RedirectFrequency(req.frequency)),
            ("tx", if monthly then RecurringTxId(txn.payerId, now) else txn.paymentInfoTransactionId),
            ("amt", if monthly then txn.amt else txn.paymentRequestAmt),
            ("cc", txn.currencyCode)]
  {
    var prefix := LocalePrefix(req.locale);
    assert '?' !in prefix;
    var stamp := HundredthsText(now);
    assert '&' !in stamp;
    var monthly := req.frequency == Some("monthly");
    var tx := if monthly then RecurringTxId(txn.payerId, now) else txn.paymentInfoTransactionId;
    assert '&' !in tx;
    ThankYouQuery(prefix, RedirectFrequency(req.frequency), tx,
                  if monthly then txn.amt else txn.paymentRequestAmt, txn.currencyCode);
  }

  /**
   * Recurring transaction ids: with payer ids of one length (PayPal's are fixed-length), two ids are equal
   * only for the same payer at the same millisecond. `Date.now() / 100` is a floating-point quotient, so
   * its text keeps the last two digits as decimals and the clock is not coarsened.
   */
  lemma RecurringTxIdsUnique(payerA: string, nowA: nat, payerB: string, nowB: nat)
    requires |payerA| == |payerB|
    ensures RecurringTxId(payerA, nowA) == RecurringTxId(payerB, nowB) <==> payerA == payerB && nowA == nowB
  {
    var a := RecurringTxId(payerA, nowA);
    var b := RecurringTxId(payerB, nowB);
    if a == b {
      assert payerA == a[..|payerA|] == b[..|payerB|] == payerB;
      assert HundredthsText(nowA) == a[|payerA|..] == b[|payerB|..] == HundredthsText(nowB);
      HundredthsTextInjective(nowA, nowB);
    }
  }

  /**
   * Without the length discipline, different payers can collide: "A1" at 2300 and "A" at 12300 both give
   * "A123". For payer ids without a '.', as PayPal's alphanumeric ids are, such a collision needs the
   * two stamps' integer parts to differ in digit count; with the present 13-digit millisecond clock
   * (11-digit integer part) that cannot happen before the year 2286.
   */
  lemma RecurringTxIdsCanCollideAcrossPayers()
    ensures RecurringTxId("A1", 2300) == RecurringTxId("A", 12300) == "A123"
  {
  }

  /** A payer id that ends in '.' lets a whole stamp collide with a fractional one of the same clock era. */
  lemma RecurringTxIdsCollideThroughDot()
    ensures RecurringTxId("Q1.", 500) == RecurringTxId("Q", 150) == "Q1.5"
  {
  }
}
