# Verified models of the storefront's checkout saga and session lifecycle

The storefront talks to order, basket, user and payment services over HTTP and keeps its
sessions in a TTL cache. None of the remote calls is transactional, and a call that timed out
may still have been applied. This project models that behaviour in Dafny and proves what it
guarantees, for every interleaving, every network outcome and every run.

- `Wire.dfy`: the financial values carried from the basket service to the order service, and the mappers' loops.
- `Remote.dfy`: the two services, the fate of one attempt (served, or answered with an error code or not at all, each
  with or without having been processed), kawa's retry loop, and attempts that land after it has ended.
- `Saga.dfy`: a state machine in which any number of `ConfirmPayment` calls run side by side, interleaved with
  other uses of the basket service, one remote call at a time. A mutation that failed before it was processed stays in
  flight and may land at any later moment. The invariant is kept by every event.
- `SagaSafety.dfy`: what follows for every schedule, and concrete runs where a documented promise is not kept.
- `Payment.dfy`: `ConfirmPayment` step by step, with interference before every remote call, proved to be one of
  the machine's runs, so every theorem about schedules applies to it.
- `BasketService.dfy`: `AddItemFromSearch` and its recovery from a checked-out basket, with retried adds.
- `Sessions.dfy`, `SessionTiming.dfy`: sessions as a machine of loads and saves (requests may overlap), and as runs
  of whole requests one after the other; lifetime, removal, refresh spacing, agreement with the store.
- `SessionApp.dfy`: the store, `Login`, `refreshIfNeeded`, `currentSession` and `logout` step by step.
- `Guards.dfy`: the route table and the two guards.
- `Radix.dfy`, `Cookies.dfy`, `Tokens.dfy`, `Durations.dfy`: cookie framing over base64url, session IDs, rounding.

`dafny verify dfyconfig.toml` checks everything.

## Where the code and its comments part

- *Approval gate.* A refusal from the payment gateway whose message text is empty passes for an approval: the adapter
  copies the empty text into `ErrorMessage` (`internal/infrastructure/http/payphoneremote/payphoneremote.go:199-205`),
  which is what the service tests. The gate admits exactly the approvals and those refusals (`GateAdmits`).
- *New basket ID.* It is not "always non-empty when err is nil" (`internal/core/port/service/payment.go:36`): it is empty
  exactly after a refusal or when the create-basket reply has no body (`NewBasketIdEmpty`); the second happens to any
  sale past the gate (`SaleCanComplete`).
- *Orders per payment.* Nothing remembers a confirmed payment. Each of its lines is ordered at most once exactly as long
  as the gateway lets at most one call for it pass (`OrderedOnceIff`).
- *Checkout without orders.* A basket is checked out with nothing ordered exactly when the price answer had no items,
  with or without a body (`NothingSoldIff`).
- *Current session.* The session a request goes on with is not always the stored one: its record may lapse while the
  refresh is failing, and a save may take effect and report an error. Otherwise they agree (`StoreAgreement`).
- *Refresh rate.* "At most once per refresh_interval" (`internal/infrastructure/api/web/session.go:86-87`) holds exactly when
  a token lasts at least two (positive) intervals (`OncePerIntervalIff`). Both default to 24 hours
  (`vendor/github.com/v8tix/beecore-eda/config/config.go:165-190`), and then every request refreshes.
- *Logout.* It is final exactly when no other request that loaded the session is still open (`RemovalIsFinal`).
- *Durations.* The last half hour of a day is shown as "0 days".

## Assumptions

A success reply means the request was applied. A checked-out basket refuses item changes, adds with 409. New baskets
get unused, non-empty IDs. The cache honours its expiry times, and a call to it takes effect entirely or not at all.
Session IDs do not repeat. Money is exact. What the gateway, the user service and the price computation answer is
left to the environment.

## Model

| member | source | states |
|---|---|---|
| Wire.MapLineItem | internal/infrastructure/http/basketremote/client.go:93-108 | every field of the item, its store and its products arrives as sent, in order; sending the result on yields the value received |
| Wire.MapFinancials | internal/infrastructure/http/basketremote/client.go:110-123 | the same for the whole breakdown, item by item, and its four totals |
| Wire.MapWireItem | internal/infrastructure/http/orderremote/client.go:116-144 | the outbound mapping carries every field over; reading the wire value back gives the line item |
| Wire.WireRoundTrip | internal/infrastructure/http/orderremote/client.go:116-144 | what the order service is sent is what the basket service said |
| Wire.DomainRoundTrip | internal/infrastructure/http/orderremote/client.go:71-86 | an order read back shows the line item that was ordered |
| Remote.Attempts | vendor/github.com/v8tix/kawa/call.go:112-144 | a retried call makes between one and MaxRetries + 1 attempts |
| Remote.CodesDecide | vendor/github.com/v8tix/kawa/retry.go:64-71 | 408, 429, 500, 502, 503, 504, codes below 400 and missing answers are followed by another attempt within the budget; any other code ends the call as its answer |
| Remote.CopiesBounded | vendor/github.com/v8tix/kawa/call.go:112-144 | a create-order call with n retries stores at most n + 1 copies, however many of its attempts land after it returned, at least one if it reports success, and nothing else |
| Remote.RetriedIsLanded | vendor/github.com/v8tix/kawa/call.go:112-144 | whatever the request and the replies, a retried call has done exactly what its processed attempts do one after the other |
| Remote.RetriesDuplicate | internal/infrastructure/http/orderremote/orderremote.go:16-25 | for every n, n retries can store n + 1 copies while the caller sees one success |
| Remote.SingleShotIsNecessary | internal/infrastructure/http/orderremote/orderremote.go:42-49 | creating an order never duplicates, late landings included, if and only if it is not retried |
| Saga.ExecKeeps | internal/core/payment/service.go:86-134 | every event of every schedule keeps each call's applied and in-flight effects in step with its program counter |
| Saga.DeliverEffect | internal/infrastructure/http/basketremote/basketremote.go:118-132 | a single-shot mutation is applied (acknowledged or not), still in flight, or without trace |
| Saga.ReadKeeps | internal/core/payment/service.go:90-106 | confirming, fetching a token and pricing change neither orders nor baskets |
| SagaSafety.HistoryIsPrefixOfPlan | internal/core/payment/service.go:103-131 | a call's effects are a prefix of order 1..N, checkout, new basket: the steps that reported success plus at most one whose outcome was lost |
| SagaSafety.CompletedMeansAllApplied | internal/core/payment/service.go:124-133 | a nil error with a confirmation past the gate holds exactly when every step reported success, and then all were applied |
| SagaSafety.CheckoutFollowsOrders | internal/core/payment/service.go:111-126 | when a checkout is applied, one order per line of the call's snapshot is stored, with its user, payment, basket and shipping IDs |
| SagaSafety.OneOrderPerPosition | internal/infrastructure/http/orderremote/orderremote.go:16-25 | each call stores at most one order per snapshot position over any run |
| SagaSafety.OrdersPerPayment | internal/core/payment/service.go:111-122 | the orders of a payment never exceed the snapshot lengths of its priced calls, and equal them once those have issued their orders |
| SagaSafety.RepeatedConfirmations | internal/core/payment/service.go:86-89 | confirming a payment again is not idempotent: for any list of passing replies, as many calls can store the same line once each |
| SagaSafety.OrderedOnceIff | internal/core/payment/service.go:86-122 | with at most n passing replies for a payment, no line of it is ordered twice in any reachable state, if and only if n <= 1 |
| SagaSafety.WireConservation | internal/core/payment/service.go:111-122 | the items of a call's orders are, in order and unchanged, those the basket service answered; all of them once it went on to the checkout |
| SagaSafety.GateAdmits | internal/infrastructure/http/payphoneremote/payphoneremote.go:198-205 | the gate admits exactly replies with code 3 and status "Approved", and refusals with an empty message text |
| SagaSafety.ConfirmationSays | internal/infrastructure/http/payphoneremote/payphoneremote.go:198-208 | a confirmation has the reply's transaction ID and status, no error text when approved, else the gateway's text or the fixed one |
| SagaSafety.EffectsArePassed | internal/core/payment/service.go:90-96 | whatever a call had applied or has in flight follows a gateway reply of its own that passed the gate |
| SagaSafety.OrdersFollowApproval | internal/core/payment/service.go:90-96 | without blank refusals, every applied effect follows a real approval of its own call |
| SagaSafety.BlankRefusalStoresOrder | internal/infrastructure/http/payphoneremote/payphoneremote.go:199-205 | from any baskets, any blank refusal can get any item ordered under the call's own IDs, so the condition is needed |
| SagaSafety.RefusedLeavesNoTrace | internal/core/payment/service.go:94-96 | a call that returned a refused confirmation has nothing applied and nothing in flight |
| SagaSafety.BasketsChangeByCheckoutOnly | internal/core/payment/service.go:103-131 | no confirmation, whatever fails or lands late, changes a basket's contents or owner; it is checked out exactly if it was so or some call's checkout of it was applied |
| SagaSafety.ClosedBasketIsOrdered | internal/core/payment/service.go:108-126 | a basket that became checked out was so by a call past the gate that had stored its whole snapshot as orders |
| SagaSafety.NewBasketIdEmpty | internal/core/port/service/payment.go:35-39 | with a nil error the ID is empty exactly after a refusal or a bodiless reply; otherwise it names a new, open, empty basket of the user |
| SagaSafety.SaleCanComplete | internal/core/payment/service.go:111-133 | whatever was priced, a call past the gate can complete from any baskets: its whole plan applied, its basket closed, a new empty one open for its user, and the empty ID returned with a nil error if the last reply has no body |
| SagaSafety.NothingSoldIff | internal/core/payment/service.go:103-126 | a call whose checkout was applied has stored no order if and only if the one answer it was priced by had no items |
| SagaSafety.EmptyPriceSellsNothing | internal/infrastructure/http/basketremote/basketremote.go:189-193 | from any baskets, an answer without a body or with an empty list makes the checkout the one effect logged: the basket is closed with its contents as they were and nothing is ordered |
| Payment.Backend.CreateOrder | internal/infrastructure/http/orderremote/orderremote.go:32-56 | one single-shot order request is one event of the machine; no error exactly if it got through |
| Payment.Backend.CheckoutBasket | internal/infrastructure/http/basketremote/basketremote.go:118-132 | likewise for the checkout, of a basket that exists |
| Payment.Backend.CreateBasket | internal/infrastructure/http/basketremote/basketremote.go:23-41 | likewise for the new basket, under an unused ID; a reply without a body yields the empty ID |
| Payment.Begin | internal/core/payment/service.go:90-106 | the call gets to its effects exactly if the gateway passes and a token and a price are to be had, and then its snapshot is what was received; otherwise it ends with the refusal or an error |
| Payment.ConfirmPayment | internal/core/payment/service.go:86-134 | under any interference the call is a run of the machine ending in the result returned: what Begin says before the effects, an approval (code 3, "Approved") among what lets it through; then no error exactly if every step reported success, only if all requests got through, and, if they did and the basket exists, always unless the new ID is empty or taken; the confirmation names the gateway's transaction; an approved nil error means its whole plan was applied |
| BasketService.RetriedAdd | internal/infrastructure/http/basketremote/basketremote.go:67-87 | when a retried add returns it has been applied once per processed attempt, at least once on success; a checked-out basket is untouched |
| BasketService.AddsBounded | internal/infrastructure/http/basketremote/basketremote.go:67-87 | however many of its attempts land after it returned, an add is applied at most MaxRetries + 1 times and changes nothing else |
| BasketService.OneClickAddsMany | internal/infrastructure/http/basketremote/basketremote.go:71-76 | one click can add the product MaxRetries + 1 times |
| BasketService.AddSucceedsIff | internal/infrastructure/http/basketremote/basketremote.go:71-76 | an add to an open basket succeeds if and only if within the budget an attempt gets through after failures that are tried again |
| BasketService.Client.BasketAddItem | internal/infrastructure/http/basketremote/basketremote.go:67-87 | the retry loop computes the specified outcome: on an open basket success exactly if the add gets through, otherwise an error and no change; 409 alone becomes the checked-out error |
| BasketService.Client.CreateBasket | internal/infrastructure/http/basketremote/basketremote.go:23-41 | one attempt, error or ID, the empty one without a body |
| BasketService.Client.FindBasket | internal/infrastructure/http/basketremote/basketremote.go:44-62 | the basket under the ID asked for, with its owner, items and status as the service has them, or the zero value without a body |
| BasketService.Client.AddItemFromSearch | internal/core/basket/service.go:89-115 | success means an open basket with the product, a new one of the user if the given one was checked out, and the basket handed back is that one as it now is; all else untouched; a basket is created exactly on a 409, at most two adds; and it does succeed, on either path, if its requests get through within the retry budget |
| Sessions.StoredSessionsAreGenuine | internal/core/auth/service.go:97-130 | every stored session has a user and an access token, and keeps the user and refresh token of its login, in any interleaving |
| Sessions.RecordsComeFromSaves | internal/infrastructure/redis/session/session.go:50-57 | every stored record is what some save left under its ID, and lapses TTL after it |
| Sessions.BoundedLifetime | internal/infrastructure/redis/session/session.go:50-75 | a session that resolves is, unchanged, what a save less than TTL ago left |
| Sessions.RemovalIsJustified | internal/infrastructure/api/web/session.go:58-77 | a session stops resolving only by logout, an explicitly rejected refresh, or lapse |
| Sessions.RemovalIsFinal | internal/infrastructure/api/web/session.go:105-123 | a session that is gone never resolves again if and only if no open request has loaded it |
| Sessions.RunIsExec | internal/infrastructure/api/web/session.go:80-89 | one request at a time is a special case of the machine |
| SessionTiming.RefreshSpacing | internal/infrastructure/api/web/session.go:96-121 | i to j stored refreshes in a window T satisfy (j - i)(D - R) <= T, counting the login |
| SessionTiming.OncePerIntervalIff | internal/infrastructure/api/web/session.go:80-89 | "at most once per refresh_interval" holds if and only if the interval is not positive or D >= 2R |
| SessionTiming.AlwaysDueIff | internal/infrastructure/api/web/session.go:128-134 | every request is due a refresh if and only if D <= R |
| SessionTiming.DefaultsRefreshEveryRequest | vendor/github.com/v8tix/beecore-eda/config/config.go:165-190 | the default durations, 24 hours both, refresh on every request |
| SessionTiming.GoneBetweenRequests | internal/infrastructure/api/web/home.go:38-45 | with one request at a time a session that is gone stays gone |
| SessionTiming.LogoutCanBeUndone | internal/infrastructure/api/web/session.go:118-123 | a refresh that loaded before a logout and saves after it brings the session back |
| SessionTiming.RequestEffect | internal/infrastructure/api/web/session.go:53-77 | a whole request changes the store only if a refresh is due, and then as the answer says |
| SessionTiming.ProfileSaves | internal/infrastructure/api/web/handler/user.go:179-185 | a profile save that takes effect stores the one field it changes for another TTL, and nothing else changes |
| SessionTiming.StoreAgreement | internal/infrastructure/api/web/session.go:53-77 | the session a request goes on with resolves under its ID afterwards, unchanged, if and only if its refresh was stored and acknowledged, or none was stored and the record did not lapse meanwhile |
| SessionTiming.StoreCanDisagree | internal/infrastructure/api/web/session.go:118-125 | under every configuration both failures happen: a record that lapses during a failing refresh, and a save that took effect and reported an error |
| SessionTiming.SessionTtlIff | internal/infrastructure/api/web/app.go:114-119 | the TTL is a week without a setting, else the configured seconds exactly up to 9 223 372 036, the most that fits, and positive there |
| SessionApp.App.Save | internal/infrastructure/redis/session/session.go:50-57 | the record under the ID is replaced and lapses TTL from now |
| SessionApp.App.Load | internal/infrastructure/redis/session/session.go:59-75 | the stored session if it has not lapsed; loading changes nothing |
| SessionApp.App.Delete | internal/infrastructure/redis/session/session.go:77-79 | the record is gone, others stay |
| SessionApp.App.Login | internal/core/auth/service.go:80-135 | success, exactly if every answer is usable and the save is acknowledged, stores exactly the session returned under the fresh ID, made of the user, first address and tokens answered; failure changes nothing, but for a save that reported an error after taking effect |
| SessionApp.App.RefreshIfNeeded | internal/infrastructure/api/web/session.go:90-126 | an access token near expiry is exchanged for the one minted, all else kept, and stored; only an explicit rejection gives no session; on any other failure the caller keeps its own |
| SessionApp.App.CurrentSession | internal/infrastructure/api/web/session.go:42-78 | for every answer, which session is returned and what the store then holds: a rejected refresh removes it, a minted token is stored, all else leaves it; what it returns resolves afterwards, unchanged, exactly when StoreAgreement says |
| SessionApp.App.Logout | internal/infrastructure/api/web/home.go:31-45 | the cookie's session no longer resolves |
| Guards.Mux.constructor | internal/infrastructure/api/web/routes.go:73-124 | the forty routes, fourteen anonymous ones and then the protected ones |
| Guards.Mux.Handle | internal/infrastructure/api/web/middleware.go:69-159 | which lookups lead to which redirect or the error page; any page served fits its guard |
| Guards.GuardsHold | internal/infrastructure/api/web/middleware.go:107-158 | whatever the lookups answer, protected pages are served with a user and uncached, anonymous ones without |
| Guards.NoRedirectLoop | internal/infrastructure/api/web/routes.go:77-123 | with a steady answer a redirect leads in one hop to the one route that serves its page |
| Tokens.RandomBytes | internal/token/token.go:11-20 | the buffer is filled from the source |
| Tokens.TokensAreDistinct | internal/token/token.go:22-29 | distinct bytes give distinct IDs of 26 characters over a-z and 2-7 |
| Tokens.TokenSays | internal/token/token.go:28 | an ID spells, in the lower-case base32 alphabet, the number its sixteen bytes make, followed by two zero bits |
| Tokens.New | internal/token/token.go:22-29 | an ID unless the random source fails |
| Radix.ValueOfDigits | internal/token/token.go:28 | a number that fits is recovered from its digits |
| Radix.DigitsOfValue | internal/token/token.go:28 | digits are recovered from their number |
| Cookies.Base64RoundTrip | internal/cookies/cookies.go:22-46 | decoding undoes encoding for any bytes |
| Cookies.EncodeSays | internal/cookies/cookies.go:22-32 | the text spells, in the base64url alphabet, the number the bytes make, followed by zero bits to fill the last character, and padding to a multiple of four |
| Cookies.DecodeIff | internal/cookies/cookies.go:34-46 | what can be decoded: multiples of four characters, all in the alphabet but for one or two of padding at the end |
| Cookies.SignedRoundTrip | internal/cookies/cookies.go:48-82 | a signed value is accepted and comes back |
| Cookies.CutAtName | internal/cookies/cookies.go:140-147 | cutting at the first colon separates name and value exactly when the name has none |
| Cookies.EncryptedRoundTripIff | internal/cookies/cookies.go:84-150 | an encrypted value comes back exactly when the name has no colon, and is refused otherwise |
| Cookies.Jar.Write | internal/cookies/cookies.go:22-32 | a cookie over 4096 bytes is refused, any other is set |
| Cookies.Jar.Read | internal/cookies/cookies.go:34-46 | what was written comes back |
| Cookies.Jar.WriteSigned | internal/cookies/cookies.go:48-57 | refused exactly when the whole cookie is over 4096 bytes; else the signature goes in front of the value |
| Cookies.Jar.ReadSigned | internal/cookies/cookies.go:59-82 | what was written signed comes back, and nothing else is accepted |
| Cookies.Jar.WriteEncrypted | internal/cookies/cookies.go:84-108 | refused exactly when the whole cookie is over 4096 bytes; else the nonce goes in front of the sealed name and value |
| Cookies.Jar.ReadEncrypted | internal/cookies/cookies.go:110-150 | what was written encrypted under a colon-free name comes back, and nothing is accepted that does not open to this name and the value |
| Durations.UnitByLength | internal/funcs/funcs.go:65-104 | the unit changes at exactly 1 s, 59.5 s, 59.5 min, 23.5 h and 365 days |
| Durations.UnitNeverDrops | internal/funcs/funcs.go:65-104 | a longer duration never falls back to a smaller unit |
| Durations.CountsInRange | internal/funcs/funcs.go:70-103 | counts stay within 59, 59, 23 and 364 |
| Durations.ErrorBound | internal/funcs/funcs.go:70-103 | at most half a unit off where rounded, less than one where cut off |
| Durations.ZeroDaysIff | internal/funcs/funcs.go:91-96 | "0 days" is shown exactly on the last half hour of a day |
| Durations.ShownGrowsIff | internal/funcs/funcs.go:65-104 | what is shown grows with the duration except exactly from below that half hour into it |

## Left out

- Payment.ConfirmPayment: the retries inside its reads (gateway confirmation, token, breakdown) are one answer each, because reads leave no trace in the services modelled here; the gateway's own books are not modelled.
- SagaSafety.CheckoutFollowsOrders: is about the snapshot, not the basket's final contents, because items may be added between the two; the price computation itself belongs to the basket service.
- BasketService.Client.AddItemFromSearch: one session's requests in sequence; an add that lands after the call returned is followed up for that add alone (AddsBounded), not for the request, and neither is a checkout in the middle of it.
- BasketService.Client.FindBasket: the payment ID and the products' names, prices and images are left out; the basket's contents are a multiset of product IDs.
- Cookies.Jar.Read: line breaks inside the text, which Go's decoder skips, cannot occur in a cookie; cookie names are taken to be valid tokens.
- Tokens.TokensAreDistinct: says nothing about how random the bytes are.
- AddItem and RemoveItem of the basket service, order reading, and the thin pass-through services: one call each, they would only add easy members.
- An unparsable refresh interval, which turns refreshing off.
- The number words around a duration ("1 day", "2 days"), slugs, validators and the other template helpers.
- Floating point, message encoding, bcrypt, HMAC, AES and the random source, which are abstract or exact here.
- Templates, static files, CSRF tokens, logging, metrics and health checks.
