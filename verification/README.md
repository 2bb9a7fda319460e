# Donation routes of donate.mozilla.org, modelled in Dafny

This project models the payment orchestration of the donation server: the `stripe`, `paypal` and
`paypal-redirect` handlers of `routes/index.js` and the three Stripe wrappers of `routes/stripe.js`.

Every remote operation (Stripe customer, charge and subscription creation; PayPal sale set-up,
checkout details and checkout completion) is an input: how it settled, `Ok(record)` or `Err(error)`.
Each handler is one pure step function. It takes the request, the configuration and those outcomes.
It returns the reply, the trace of remote calls made (with the exact objects handed to them) and the
log entries written (tags, correlation id and payload keys).

Modules, leaf first:

- `Outcomes`: `Option` and `Result`.
- `Js`: the JavaScript semantics the routes rely on. This covers request field values, truthiness, `||`,
  string conversion, the decimal text of integers, and the text of the Number `n / 100`.
  The text of a non-negative integer (`NatText`) and of `n / 100` (`HundredthsText`) each come with a
  reader proved to invert it; the rest of string conversion has no reader.
- `Text`: `Join`, `Split` and `Cut` on a separator, and `QueryParams`. Splitting a join of separator-free
  parts gives the parts back, and cutting `k + sep + v` gives `(k, v)`.
- `Flow`: the reference for strictly sequential steps. A step runs only if every earlier one succeeded.
- `Remote`: the payload, the SDK request objects, the remote records and errors, calls and log entries.
- `StripeApi`: `customer`, `single` and `recurring` from `routes/stripe.js`.
- `Routes`: the three handlers from `routes/index.js`.
- `RouteProperties`: lemmas relating the handlers to `Flow`, to the URL readers and to one another.

Two observations about the code:

- The recurring PayPal transaction id is the payer id followed by `Date.now() / 100`. In JavaScript that
  division is floating-point, so the text keeps the last two digits after a decimal point. The clock is
  therefore not coarsened to 100-millisecond buckets. With fixed-length payer ids, two ids collide only
  for the same payer in the same millisecond (`RecurringTxIdsUnique`). Payer ids of different lengths
  can collide (`RecurringTxIdsCanCollideAcrossPayers`). For payer ids without a '.', as PayPal's
  alphanumeric ids are, that needs the two stamps' integer parts to differ in digit count, which the
  present 13-digit millisecond clock cannot reach before the year 2286. A payer id containing a '.'
  could collide within one clock era: "Q1." at 500 and "Q" at 150 both give "Q1.5"
  (`RecurringTxIdsCollideThroughDot`).
- The redirect route tags its log entries with the frequency taken from the URL path. A path whose
  frequency segment is `error` therefore tags the entries of a successful donation with `error`
  (`RedirectFrequencyCanForgeErrorTag`). Only the first tag tells a failure apart: the logging
  invariant of the redirect route is stated by position and holds for every frequency.

## Model

| member | source | states |
|---|---|---|
| `StripeApi.Customer` | routes/stripe.js:11-30 | The SDK gets exactly `email`, `metadata` and `source` = the card token. The callback always carries the duration under `stripe_customer_create_service`. On error it carries the error and no `customer` key. On success it carries both the duration and the customer record. |
| `StripeApi.Single` | routes/stripe.js:31-56 | The charge request copies amount, currency, description and metadata unchanged and sets `customer` to the customer's id. The callback shape mirrors `Customer`, with the `charge` key. |
| `StripeApi.Recurring` | routes/stripe.js:57-73 | The subscription is created against the customer's id. Its plan is the currency code, its quantity is the given quantity, and it carries the metadata. The callback always has both the duration key and `subscription`, with the error alongside when the call failed. |
| `StripeApi.ReceivedIsSdkResult` | routes/stripe.js:17-71 | Reading a wrapper's callback (error first, else record) gives back exactly how the SDK call settled, for all three wrappers. |
| `StripeApi.DurationUnderOwnKey` | routes/stripe.js:18-68 | Each wrapper records the measured duration under its own key and under none of the other two, whatever the outcome. |
| `Routes.Stripe` | routes/index.js:18-160 | Customer creation comes first. If it fails, nothing else is called and the reply is a 400 "Stripe charge failed" carrying `{code, rawType}` under `stripe`. A charge is made exactly when the customer was created and the frequency is not the string "monthly"; a subscription exactly when it is. The charge and subscription requests are fully specified, with quantity = the amount modifier's result. Replies: a successful charge gives 200 one-time with amount, currency and id from the charge record. A successful subscription gives 200 monthly with currency from its plan and quantity and id from the record. A failed subscription gives a 400 with the diagnostics as boom data. The signup fires exactly on a successful payment with a truthy `signup`; after a successful payment it is the only further call, made once with the transaction. Each settled call gets one log entry: `stripe` plus `customer`, `single` or `recurring`, with `error` first when it failed. |
| `Routes.PayPal` | routes/index.js:161-207 | One set-up call, the recurring one exactly for "monthly". The sale object holds the modified amount, currency, locale and description, `cancelUrl` = server URI + "/", and `returnUrl` embedding the frequency (default "") and the locale. One log entry is tagged paypal, sale, then recurring or single, with `error` last on failure. The entry carries the request id and the keys `request_id` and `paypal_request_sale_service`, plus `error_name`, `error_message` and `details` on failure. The reply is 500 wrapping the error, or 200 `{endpoint, token}`. |
| `Routes.LocalePrefix` | routes/index.js:209-212 | The locale is empty when absent or empty, and is '/' + locale otherwise. |
| `Routes.RedirectFrequency` | routes/index.js:213-215 | The frequency is "single" when the path parameter is absent or empty, the parameter itself otherwise, and "monthly" exactly when the path says "monthly". |
| `Routes.PayPalRedirect` | routes/index.js:208-307 | The checkout details are fetched first for the query token, by the recurring variant exactly for "monthly". If that fetch fails, the reply is a 400 wrapping the error, with an error-tagged checkout-details log, and completion is never called. Otherwise completion gets exactly the fetched details. A completion failure is a 400 with an error-tagged checkout-payment log. On success the reply redirects to `locale/thank-you/?frequency=…&tx=…&amt=…&cc=…`. The recurring tx is the payer id followed by the text of now / 100. The logs are exactly: checkout-details on the fetch, then checkout (or error, checkout-payment on failure), each ending with the frequency. |
| `RouteProperties.StripeStopsAtFirstFailure` | routes/index.js:28-159 | The payment calls made are exactly the steps the Flow reference runs: customer, then charge or subscription, stopping at the first failure. The reply is an error (400) exactly when a step failed, else 200. |
| `RouteProperties.StripePaymentCalls` | routes/index.js:28-159 | The payment calls are the customer call, followed by the charge or subscription call exactly when the customer was created. The signup is not among them. |
| `RouteProperties.StripeWellLogged` | routes/index.js:28-159 | Log entry i belongs to payment call i: it carries the request id and names that call's provider (`stripe`) and operation. Only a failed final call's entry has `error` as its first tag. |
| `RouteProperties.PayPalWellLogged` | routes/index.js:175-200 | The set-up route logs its one call once, with the request id and the tags `paypal` and `sale`. It replies 500 exactly on failure, which is exactly when the entry's last tag is `error`. |
| `RouteProperties.RedirectStopsAtFirstFailure` | routes/index.js:215-306 | Details, then completion only if the details came back. The reply is a 400 exactly when a step failed, otherwise a 302 redirect. Log entry i belongs to call i (`paypal` with checkout-details, or checkout / checkout-payment for the completion). `error` is the first tag exactly on the failing entry, for every path frequency. |
| `RouteProperties.RedirectFrequencyCanForgeErrorTag` | routes/index.js:213-254 | A path frequency of "error" makes a completed donation's log entries all carry the `error` tag. |
| `RouteProperties.ReturnUrlRoundTrip` | routes/index.js:172 | Matching the return URL against `/api/paypal-redirect/{frequency}/{locale}/` recovers exactly the frequency and locale it was built from, when neither contains '/'. |
| `RouteProperties.SetupAndRedirectAgree` | routes/index.js:163-215 | A payer returning through the URL the set-up built takes the recurring path on return exactly when the set-up did. The return's frequency is "monthly" exactly when the set-up was tagged recurring. |
| `RouteProperties.MissingLocaleReturnsUndefined` | routes/index.js:172 | A payload without a locale yields a return URL whose locale segment is the text "undefined". |
| `RouteProperties.ThankYouQuery` | routes/index.js:256 | The thank-you URL's query reads back as exactly the pairs frequency, tx, amt and cc, when no value contains '&'. |
| `RouteProperties.RedirectCarriesTransaction` | routes/index.js:256-303 | After a completed checkout, the redirect's query carries the frequency, the transaction id (synthesised on the recurring path), the amount and the currency code. |
| `RouteProperties.RecurringTxIdsUnique` | routes/index.js:300-303 | For payer ids of equal length, two synthesised ids are equal exactly when payer and timestamp are equal. |
| `RouteProperties.RecurringTxIdsCanCollideAcrossPayers` | routes/index.js:300-302 | Payer "A1" at 2300 ms and payer "A" at 12300 ms get the same id, "A123". |
| `RouteProperties.RecurringTxIdsCollideThroughDot` | routes/index.js:300-302 | A payer id ending in '.' collides within one clock era: "Q1." at 500 ms and "Q" at 150 ms both give "Q1.5". |
| `Js.HundredthsRoundTrip` | routes/index.js:301 | The text of `Date.now() / 100` reads back as the exact timestamp. |
| `Js.HundredthsTextInjective` | routes/index.js:301-302 | Different timestamps give different texts. |
| `Js.ParseNatText` | routes/index.js:172 | The decimal text a number converts to in string concatenation reads back as that number. |
| `Js.NatTextOfParse` | routes/index.js:172 | Every canonical decimal numeral is the text of the number it denotes. |
| `Js.ToStrMonthly` | routes/index.js:163-172 | A frequency value converts to the text "monthly" exactly when it is the string "monthly". So the set-up branch and the return URL's segment agree. |

## Left out

- routes/paypal.js, routes/signup.js and scripts/amount-modifier are not part of this model. The amount modifiers are arbitrary functions in `Config`. The PayPal and Stripe calls are outcomes supplied as input.
- The mailing-list signup has no callback in the route. The model records the call in the trace and takes no outcome for it, so nothing about it can reach the reply.
- The `signup` route (routes/index.js:8-17) is not a donation flow and is not modelled.
- The Stripe SDK's network, retry and 25-second timeout (routes/stripe.js:7-8), and the key set-up from the environment: a timeout is just another `Err`.
- Clock readings and measured durations are parameters (`Timed.ms`, `now`). `now` is a `nat`.
- `Js.HundredthsText`: renders n / 100 exactly. This matches JavaScript's Number-to-string for timestamps below 10^15 ms. Beyond 10^21, JavaScript switches to exponent notation.
- `Routes.RecurringTxId`: the fields of PayPal's `txn` answer, PAYERID included, are taken to be strings, as PayPal's responses are text. An absent PAYERID would make `undefined + stamp` a numeric addition and the id "NaN"; the model cannot produce that id.
- `Js.ToStr`: numbers are integers, and objects and arrays are not representable. The `paypal` route does print posted `locale` and `frequency` into the return URL, so a posted `1.5` or object would print "1.5" or "[object Object]". The model assumes clients post these fields as strings, as the donation form does.
- Log payloads: only their tags, the correlation id and the set of keys are kept. Their values are left out.
- hapi and boom plumbing: reply objects, the exact boom message formatting of `boom.wrap`, and URL encoding.
- The route table: `RouteProperties.ReturnRouteParams` assumes the return path is matched as `/api/paypal-redirect/{frequency}/{locale}/`.
- Asynchrony: each handler is one sequential step function. The callbacks' nesting becomes the order of the trace.
