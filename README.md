# Checkout slice of a web-agency brochure site, in Dafny

This project models the server-side checkout of a small agency website. The
site sells fixed-price and monthly services through a hosted payment
processor (Stripe) and keeps its records in a hosted document database
(Convex). The model covers:

- the promo-code engine (`applyPromoCode`). A code is trimmed and
  upper-cased. It is then matched against HALFPRICE, QUARTEROFF and
  FIFTYCENTS. The discounted price never goes below 0.50;
- the three actions in `convex/stripe.ts`:
  - `createPaymentIntent` quotes the price, applies a valid promo code,
    ignores an invalid one, rounds to cents and sends the intent request;
  - `createCheckoutSession` builds the hosted-checkout request: mode,
    monthly recurrence, optional customer email, redirect URLs, and the
    description taken from a fixed table;
  - `verifyPayment` reads the retrieved session and records exactly one
    payment when it is paid;
- the append-only tables `payments`, `consultations` and
  `serviceSelections`, with their mutations and their newest-first and
  by-session queries.

Modules follow the source files:

- `Promo` and `Stripe` model `convex/stripe.ts`;
- `Payments` models `convex/payments.ts`;
- `Services` models `convex/services.ts`;
- `Tables` is the database table those three share: a class holding the
  rows in insertion order and a counter that stands in for the clock;
- `Js` holds the JavaScript built-ins the code relies on: optional values,
  thrown errors, NaN, truthiness, `Math.round`, `Math.max`, `trim` and
  `toUpperCase`.

Money is an exact `real` in dollars. `Math.round(x)` is `Floor(x + 1/2)`,
so halves round up. Each processor call is a function parameter: it maps
the request to what the processor answers. Each action also returns the
request it sent (for `verifyPayment`, the session id it retrieved), or none, so the model can state which errors happen before
any remote call. Environment variables are `Option<string>`, and a missing
or empty value counts as unset, as `!process.env.X` does.

Where the documented behaviour and the code differ, the model follows the
code, except for the description lookup listed under "## Findings":

- a missing `CONVEX_SITE_URL` is thrown inside the `try` block, so it
  surfaces as "Failed to create checkout session". It is not a distinct
  configuration error;
- only the status `"paid"` counts as paid. `"succeeded"` does not;
- "the discounted price is at most the price" holds only for prices of at
  least 0.50. Below that every valid code raises the price to 0.50.

## Model

| member | source | states |
|---|---|---|
| `Js.Round` | convex/stripe.ts:146 | `Math.round` gives the nearest integer, and halves round up |
| `Js.Max` | convex/stripe.ts:103 | `Math.max` gives the larger of its two arguments |
| `Js.UpperOf` | convex/stripe.ts:82 | upper-casing a character never creates or removes whitespace and never gives an empty string |
| `Js.TrimIgnoresPadding` | convex/stripe.ts:82 | whitespace added before or after a string does not change its trimmed form |
| `Js.TrimUpperCommute` | convex/stripe.ts:82 | trimming then upper-casing gives the same string as upper-casing then trimming |
| `Js.ToUpperCaseIdempotent` | convex/stripe.ts:82 | upper-casing a second time changes nothing |
| `Promo.ApplyPromoCode` | convex/stripe.ts:81-110 | succeeds exactly when the normalised code is one of the three codes, and otherwise fails with "Invalid promo code"; the discounted price is max(0.50, price − discount), so it is never below 0.50 |
| `Promo.HalfPriceHalves` | convex/stripe.ts:87-90 | HALFPRICE takes price/2 off, so the discounted price is max(0.50, price/2), with the 50% message |
| `Promo.QuarterOffTakesQuarter` | convex/stripe.ts:91-94 | QUARTEROFF takes price/4 off, so the discounted price is max(0.50, 3·price/4), with the 25% message |
| `Promo.FiftyCentsIsFlat` | convex/stripe.ts:95-98 | FIFTYCENTS reports a discount of price − 0.50 and gives exactly 0.50 for every price, with the "Price reduced to $0.50" message |
| `Promo.DiscountNotAbovePrice` | convex/stripe.ts:103 | for a price of at least 0.50, a valid code never raises the price |
| `Promo.DiscountRaisesSubFloorPrice` | convex/stripe.ts:103 | for a price below 0.50, every valid code raises it to 0.50, so the bound above needs its precondition |
| `Promo.IgnoresPadding` | convex/stripe.ts:82 | whitespace around a code does not change the outcome, so " halfprice " behaves like "halfprice" |
| `Promo.BogusRejected` | convex/stripe.ts:99-100 | "bogus" is refused with "Invalid promo code" |
| `Promo.IgnoresCase` | convex/stripe.ts:82 | a code and its upper-cased form give the same outcome |
| `Promo.UpperAgreesOnCaseVariants` | convex/stripe.ts:82 | two strings that differ only in the case of ASCII letters, judged by an independent ASCII reference, upper-case to the same string |
| `Promo.AnyCaseOfValidCode` | convex/stripe.ts:82-98 | any lower-case or mixed-case spelling of a valid code, padded or not, is accepted and treated exactly as the code itself, so "halfprice" behaves like "HALFPRICE" |
| `Promo.PaddedLowerCaseHalfPrice` | convex/stripe.ts:82-90 | " halfprice " at 100.00 gives 50.00, a discount of 50.00 and the 50% message |
| `Promo.MixedCaseFiftyCents` | convex/stripe.ts:95-98 | "FiftyCents" is accepted and gives 0.50 for any price, a discount of price − 0.50 and the "Price reduced to $0.50" message |
| `Stripe.ServiceDescriptionAsWritten` | convex/stripe.ts:218-228 | as written: a table id yields its entry, an id naming one of the twelve Object.prototype members yields that inherited member, and any other id yields the fallback description |
| `Stripe.ServiceDescription` | convex/stripe.ts:218-228 | corrected: a known service id gets its table entry, and any other id gets the fallback description; the result is never empty |
| `Stripe.PrototypeMemberEscapesFallback` | convex/stripe.ts:219-227 | as written, an id naming an Object.prototype member yields that member, which is not a string, instead of the fallback |
| `Stripe.DescriptionAgreesOffPrototype` | convex/stripe.ts:227 | the corrected lookup agrees with the written one on every id that is not an Object.prototype member name |
| `Stripe.CreateCheckoutSession` | convex/stripe.ts:21-77 | a missing secret key throws before anything else; a missing site URL fails the request. Otherwise exactly one request is sent. Its mode is "subscription" with a monthly recurrence iff isRecurring is true, and "payment" otherwise. customer_email is set iff a non-empty email is given. The success and cancel URLs are the site URL plus the fixed query strings. The description is the corrected lookup's, which equals the lookup as written for every id that is not an Object.prototype member name. A processor error becomes "Failed to create checkout session" |
| `Stripe.QuoteFor` | convex/stripe.ts:127-144 | the discount is applied iff a non-empty promo code is given and it is valid. Then the final amount and message are the promo's. Otherwise the amount is the price and the message is empty |
| `Stripe.CreatePaymentIntent` | convex/stripe.ts:121-176 | a missing secret key throws "Stripe secret key not configured". A NaN price is rejected as "Failed to create PaymentIntent: Invalid price value"; neither sends a request. Otherwise it sends one request of round(finalAmount·100) cents in USD, with the metadata filled with "" defaults. It returns the quote or the rewrapped processor error |
| `Stripe.CentsExact` | convex/stripe.ts:146 | an amount already in whole cents is charged exactly that many cents |
| `Stripe.RoundMonotone` | convex/stripe.ts:146 | rounding to cents preserves the order of amounts |
| `Stripe.ChargedCents` | convex/stripe.ts:135-146 | with a valid code the charge is at least 50 cents. It is no more than the undiscounted charge when the price is at least 0.50, and FIFTYCENTS charges exactly 50 cents |
| `Stripe.InvalidCodeIgnored` | convex/stripe.ts:135-143 | an invalid code is quoted exactly as no code: the price, an empty message, no discount |
| `Stripe.Verify` | convex/stripe.ts:184-214 | one payment is recorded iff the key is set, the retrieval succeeds and the status is "paid". The reply is success iff a payment is recorded. A non-paid status gives `success:false`. A failed retrieval gives "Failed to verify payment", never `success:false`. The recorded row defaults email and service name to "" and amount to 0 |
| `Stripe.VerifyPayment` | convex/stripe.ts:184-215 | a missing secret key throws before the session is retrieved; otherwise the session id is retrieved once. It returns Verify's reply, and the payments table gains exactly Verify's row, if any, and nothing else |
| `Tables.NewestFirst` | convex/payments.ts:27 | `order("desc")` lists every row, and the k-th listed row is the k-th newest |
| `Tables.NewestFirstDescending` | convex/services.ts:40 | with increasing timestamps, the newest-first listing has strictly decreasing timestamps |
| `Tables.Table.constructor` | convex/schema.ts:5-31 | a declared table starts empty, with its clock at zero |
| `Tables.Table.Collect` | convex/services.ts:40 | `order("desc").collect()` returns every row, the k-th listed being the k-th newest in creation order; the table is not modified |
| `Tables.Table.Insert` | convex/payments.ts:13-20 | an insert appends exactly one stamped document; earlier rows are unchanged, and the clock moves forward |
| `Payments.RecordPayment` | convex/payments.ts:4-21 | appends exactly one row with the given session id, email, service name, amount and status, plus createdAt; existing rows are unchanged |
| `Payments.GetPayments` | convex/payments.ts:24-29 | returns every row, newest first in creation order; the table is not modified |
| `Payments.FirstBySession` | convex/payments.ts:34-37 | is none iff no row has the session id; otherwise it is the earliest row with that id |
| `Payments.GetPaymentBySession` | convex/payments.ts:31-38 | returns none iff no row has the session id, and otherwise the first matching row; the table is not modified |
| `Payments.LookupAfterRecord` | convex/payments.ts:31-38 | after recording a row for session s, the lookup of s finds a row for s. That is the new row when s was absent, and the earlier row when s was present |
| `Payments.DuplicateSessionKept` | convex/payments.ts:13-20 | recording the same session id twice leaves two more rows for it: nothing enforces uniqueness |
| `Services.SubmitConsultation` | convex/services.ts:4-17 | appends one row equal to the arguments (service optional) plus submittedAt, and returns success:true; only the consultations table may change |
| `Services.SelectService` | convex/services.ts:20-35 | appends one row equal to the arguments (tier optional, price any number including NaN) plus selectedAt, and returns success:true; only the serviceSelections table may change |
| `Services.GetConsultations` | convex/services.ts:37-42 | returns every consultation, newest first in creation order; the table is not modified |

## Findings

| source | as written | input that shows it | evidently intended | confidence | as-written member | corrected member |
|---|---|---|---|---|---|---|
| convex/stripe.ts:219-227 | The lookup indexes a plain object literal and falls back to "Professional web development service" only on a falsy value. Ids naming an inherited Object.prototype member return that member, a function or an object, which is truthy, so the fallback is skipped and the "string" result is not a string | serviceId = "constructor" (also "toString", "__proto__", "valueOf", …) | every id outside the five table entries gets the fallback description | high; not executed | `Stripe.ServiceDescriptionAsWritten` | `Stripe.ServiceDescription` |

`Stripe.CreateCheckoutSession` uses the corrected lookup; see its line under
"## Left out".

## Left out

- `Stripe.CreateCheckoutSession`: the line item's description is the corrected lookup's. For a service id naming an Object.prototype member ("constructor", "toString", "__proto__", …) the code as written puts that inherited member into the request, while the model sends the fallback description. On every other id the two agree, and the contract states it.
- `Services.SelectService`: an infinite `price`, which the number validator accepts and the code stores, is not representable; NaN is.
- The processor client itself (convex/stripe.ts:8-10) and its network calls. Creating an intent, creating a session and retrieving a session are function parameters. Timeouts, retries and the placeholder key are not modelled.
- Floating point: amounts are exact reals. The IEEE-754 effects of `price * 100` and `Math.round` are not modelled. Nor is the non-integer `unit_amount` that `price * 100` can give in the checkout line item: the model keeps it unrounded, as written.
- `toString()` of numbers and booleans in the intent metadata: the metadata keeps the values themselves.
- Infinite prices: a JavaScript number is either finite or NaN here. An infinite price would pass the NaN check, and this model does not cover that case.
- The `typeof args.price !== "number"` test: the argument validator already guarantees a number, so only the NaN half is modelled.
- `Tables.Table.Collect`, `Payments.GetPayments`, `Services.GetConsultations`: their contracts also state strictly decreasing stamps, which holds only because the model's counter advances on every insert. In the source, createdAt and submittedAt are `Date.now()` in milliseconds, so two rows can share a stamp; the source promises only newest first by the database's creation time.
- `Date.now()`: each table has its own counter that every insert advances. The counter stands for both the row's timestamp field and the database's creation time that `order("desc")` sorts by.
- A failing `runMutation` inside `verifyPayment`: inserts always succeed here, so the path where a database error is rethrown as "Failed to verify payment" is not modelled.
- Two concurrent `verifyPayment` calls for one session can both insert. This race belongs to the hosted database's concurrency and is not modelled. Sequentially, duplicate rows are modelled (`Payments.DuplicateSessionKept`).
- Logging (`console.*`).
- `Js.UpperOf`: only ASCII letters and the non-ASCII characters whose upper case is all ASCII letters (ß, ı, ſ and the Latin ligatures ﬀ–ﬆ) are mapped. Every other character is kept as is, where JavaScript may map it to another non-ASCII character. Which codes match is exact either way. Strings are sequences of Unicode scalar values, not UTF-16 code units.
- `Payments.RecordPayment`: `amount` is an integer number of cents, not a general JavaScript number, because the only caller passes the processor's integer total.
- `customerName` of `createCheckoutSession`: the source accepts it and never uses it, and so does the model.
- The authentication tables of the schema, all React components, and the client's `recordPaymentFromIntent` call, which has no server-side counterpart.
