# Credit ledger of the background-removal server

This project models the credit bookkeeping of the server's user controller:
a **user directory** keyed by `clerkId` (profile fields and a `creditBalance`)
and a **transaction ledger** keyed by transaction id (`clerkId`, `plan`,
`amount`, `credits`, `payment`). Three groups of handlers change them:

- identity sync (`clerkWebhooks`): `user.created` inserts a user,
  `user.updated` overwrites email, names and photo, `user.deleted` removes the
  user, and any other event type does nothing;
- payment initiation (`paymentRazorpay`, `paymentStripe`): check the user and
  the `planId`, resolve the plan against the fixed table, append one unpaid
  transaction, and ask the gateway for `amount * 100` minor units;
- payment reconciliation (`verifyRazorpay`, `verifyStripe`): on a successful
  gateway status, credit the owner with the transaction's credits exactly
  once and mark it paid.

`userCredits` reads a balance.

Layout:

- `wrappers.dfy`: `Option`.
- `plans.dfy`: the plan table, and the lookup as the code writes it (see Findings).
- `ledger.dfy`: the records, a snapshot `Db` of both tables plus the next
  free ledger key, the sum `PaidCredits` of credits granted by paid entries,
  and the accounting invariant `Accounted`. `Accounted` says each balance
  equals `opening[u]` plus the credits of the paid transactions the user
  owns. `opening[u]` is the balance at creation minus what the ledger had
  already credited to that `clerkId` by then, so a record created again
  after a delete does not inherit the old record's credits.
- `handlers.dfy`: each handler as one atomic step `Db -> (Db, Reply)`, with
  the lemmas that relate the steps.
- `controller.dfy`: the class `Controller`. It holds the two maps and the key
  counter as fields. Its methods mutate those fields step by step, as the
  handlers do. Each method keeps `Valid()` (the accounting invariant) and
  ends in the state and reply of the matching step.

The gateway's answers are inputs:

- for Razorpay, the fetched order's `status` and `receipt`, or `None` when the
  fetch throws;
- for Stripe, the redirect's `success` string;
- for initiation, the created order or session handle, or `None` when the
  gateway call throws.

A new transaction id is the value of a counter, so it is always a fresh key.
The default `creditBalance` of a new user comes from a schema that is not part
of this model, so it is a constructor parameter of `Controller`.

The model follows the code in these details:

- Reconciliation checks the gateway status **before** it looks up the
  transaction. An unknown transaction with a failed status therefore gets
  "Payment Failed", not a lookup error.
- These cases throw in the code: a `user.created` or `user.updated` event
  with no email address, an unknown transaction (with a successful status),
  an unpaid transaction whose owner is gone (with a successful status), a
  Razorpay order fetch that fails, and `userCredits` for an unknown user.
  A paid transaction answers "Payment Already Verified" before its owner is
  looked up, so a missing owner does not throw there. Each one answers with the 500 path (`ServerError`) and
  writes nothing. `user.deleted` and other event types never read an email
  address.
- A duplicate `user.created` is modelled the same way. This assumes the
  user schema has a unique index on `clerkId`. That schema is not part of
  this model; without such an index the insert would succeed and the
  directory would hold two records for one `clerkId`.
- `user.updated` for an unknown user writes nothing and is acknowledged.
- If the gateway call throws after the ledger insert, the unpaid transaction
  stays in the ledger (`GatewayFailed`).

## Model

| member | source | states |
|---|---|---|
| Plans.LookupPlan | server/controllers/UserController.js:92-101 | a plan name resolves exactly when it is Basic, Advanced or Business, and a resolved plan has positive credits and price |
| Plans.PlanTableEntries | server/controllers/UserController.js:165-169 | the table is Basic→(100 credits, 10), Advanced→(500 credits, 50), Business→(5000 credits, 250) |
| Plans.PlanPropertyAsWritten | server/controllers/UserController.js:98 | `plans[planId]` is an own plan exactly for the three names, and then that name's table entry; it is undefined exactly for names that are neither plans nor inherited object properties |
| Plans.InheritedKeyPassesGuard | server/controllers/UserController.js:99-101 | as written, the `!plan` guard accepts "constructor", which names no plan |
| Plans.LookupPlanRejectsInherited | server/controllers/UserController.js:171-174 | the own-key lookup rejects every inherited property name and agrees with the guard on the other names |
| Handlers.ApplyEvent | server/controllers/UserController.js:30-63 | an identity event never touches the ledger; create inserts only a new id, whose record is the payload's first email, first name, last name and image URL with the default balance; update keeps the key set, every balance and every other user, and sets the four profile fields; delete removes only that id, and is a no-op when it is absent; other types change nothing; a missing email or a duplicate create is an error that writes nothing |
| Handlers.ApplyEventKeepsAccounts | server/controllers/UserController.js:33-59 | identity events preserve the accounting invariant; a created user opens at the default balance |
| Handlers.Initiate | server/controllers/UserController.js:85-118 | the message "Invalid Credentials" is given exactly for an unknown user or a missing or empty planId; "Plan not found" exactly for any other name outside the table; both leave the tables unchanged; otherwise the users are unchanged and exactly one unpaid entry with the caller's clerkId and the plan's amount and credits is written under the next key; the gateway is asked for amount * 100 with that key as receipt |
| Handlers.InitiateAddsOneEntry | server/controllers/UserController.js:103-109 | on a well-formed ledger the new key is fresh: the ledger grows by exactly one entry and keeps every other entry |
| Handlers.InitiateKeepsAccounts | server/controllers/UserController.js:176-182 | initiation preserves the accounting invariant, because the new entry is unpaid |
| Handlers.Reconcile | server/controllers/UserController.js:131-146 | "Payment Failed" is given exactly for a failed status, with no change; with a successful status, an unknown entry or an unpaid entry whose owner is gone is a server error with no change; a paid entry gives "Payment Already Verified" with no change; "Credits Added" happens exactly for an unpaid entry whose owner exists; it then adds exactly the entry's credits to the owner, sets only that entry's payment flag, and leaves every other user and entry unchanged |
| Handlers.ReconcileIdempotent | server/controllers/UserController.js:134-136 | a second reconcile right after the first writes nothing and never credits; after "Credits Added" it answers "Payment Already Verified" |
| Handlers.ReconcileKeepsPaid | server/controllers/UserController.js:217-219 | a paid entry is never changed by any reconcile |
| Handlers.ReconcileKeepsAccounts | server/controllers/UserController.js:138-143 | reconciliation preserves the accounting invariant: the one credit it grants matches the one entry it marks paid |
| Handlers.BasicPurchaseEndToEnd | server/controllers/UserController.js:92-146 | create a user at 0, buy Basic (an order for 1000 minor units), confirm: balance 100 and the entry is paid; confirm again: "Payment Already Verified" and the balance stays 100 |
| UserController.Controller.ClerkWebhooks | server/controllers/UserController.js:20-68 | the directory update of the identity step; it keeps the accounting invariant, with the opening balances the identity-event lemma computes |
| UserController.Controller.UserCredits | server/controllers/UserController.js:71-80 | returns the user's creditBalance when the clerkId is present, and the error path otherwise |
| UserController.Controller.InitiatePayment | server/controllers/UserController.js:85-115 | the shared initiation logic: the new tables and reply are those of the initiation step, and the invariant is kept |
| UserController.Controller.PaymentRazorpay | server/controllers/UserController.js:83-123 | Razorpay initiation is the shared initiation step |
| UserController.Controller.PaymentStripe | server/controllers/UserController.js:154-207 | Stripe initiation is the same step, with the same plan table |
| UserController.Controller.ReconcilePayment | server/controllers/UserController.js:131-146 | the shared reconciliation logic: the new tables and reply are those of the reconcile step, and the invariant is kept |
| Handlers.VerifyRazorpayStep | server/controllers/UserController.js:128-146 | a failed order fetch is a server error with no change; a fetched order reconciles its receipt's entry, with success meaning status "paid" |
| UserController.Controller.VerifyRazorpay | server/controllers/UserController.js:126-151 | the new tables and reply are those of the Razorpay verification step, and the invariant is kept |
| UserController.Controller.VerifyStripe | server/controllers/UserController.js:210-234 | reconcile the given transaction, with success meaning the string "true" |

## Left out

- Svix signature verification of webhooks (lines 22-28): it is cryptography inside a foreign library, so events are taken as already verified.
- The Razorpay and Stripe SDK calls (lines 117, 129, 195-200): they are network clients. Their results are inputs, and the order or session handle is an opaque string.
- Gateway construction from environment variables and the currency setting (lines 8-17, 113, 187): they are process configuration. A missing gateway client makes its SDK call throw. In `paymentRazorpay` and `paymentStripe` that happens after the ledger insert, which is the `None` gateway input. In `verifyRazorpay` it happens when the order is fetched, before any read or write, which is the `None` fetch input.
- HTTP plumbing: the request and response objects, status codes, the JSON envelope and `console.log`. Only the outcome (`Reply`, with its fixed `Message`) and the state change remain.
- The Stripe success and cancel URL strings (lines 196-197) and the `Date.now()` timestamps (lines 108, 181): one is string formatting, the other is a clock.
- The race between the `payment` check and the `payment: true` write across awaits (lines 134-141): each handler is modelled as one atomic step, so concurrency is not modelled.
- Database failures in general: each throwing case listed above is one `ServerError` with no write. Mongo ObjectId cast errors on malformed ids are not modelled, because ledger keys are natural numbers.
- Clerk payload details: `email_addresses` is a list of strings, not of objects. Non-string JSON values for `planId` and `success`, and a missing `clerkId`, are not modelled.
- Numbers are unbounded naturals, not JavaScript doubles.
- Handlers.Initiate: follows the corrected plan lookup, so it does not model what happens after an inherited property name passes the guard (see Findings). That depends on the transaction schema, which is not part of this model.

## Findings

| source | as written | input that shows it | evidently intended | confidence | as-written member | corrected member |
|---|---|---|---|---|---|---|
| server/controllers/UserController.js:98-101 | `plans[planId]` on an object literal also finds the properties it inherits from `Object.prototype`, and all of them are truthy, so the `!plan` guard passes | `planId = "constructor"` (also `"toString"`, `"__proto__"`, …) | answer "Plan not found" for every name outside Basic, Advanced and Business | medium, not executed | Plans.InheritedKeyPassesGuard | Plans.LookupPlan |
