# Stripe usage-based billing service, modelled in Dafny

The application bills one user for a credits-consuming product through
Stripe. Its `StripeService` resolves a Stripe customer for the user, reusing
the stored `stripeCustomerId` while Stripe still retrieves it and otherwise
creating exactly one customer and writing its id back. It then lists the
customer's cards, subscribes the customer to a metered price and writes the
subscription and item ids back, reports usage as `"api.request"` meter
events, opens setup-intent, billing-portal and checkout sessions, and
verifies a checkout's payment from the session's status and metadata.

The model has five modules:

- `Failures` (failures.dfy): `Option`, the Python exceptions the service
  raises or catches (`StripeError`, `AttributeError`, `IndexError`,
  `ValueError`) with their `str()` text, and `Outcome`, which is either a
  returned value or a raised exception.
- `Decimal` (decimal.dfy): how `str()` writes a non-negative integer and how
  `float()` reads such a string back, with the round trip proved.
- `UserModel` (user_model.dfy): the `Subscription` and `User` records, with
  datatype default parameters standing for the dataclass defaults, and
  `CreateDummyUser`.
- `StripeGateway` (gateway.dfy): the Stripe SDK as a `Gateway` class. It
  holds the live customers, a log of created customers (its length is the
  fresh-id counter), card listings, logs of subscriptions, meter events,
  setup intents and portal sessions, and checkout sessions. The caller
  scripts `responses`: whether retrieval fails, and which calls raise a
  `StripeError`. `Valid()` says every live customer and checkout-session id
  was issued by the gateway, so new ids are provably fresh.
- `Service` (stripe_service.dfy): the pure decisions as functions and the
  `StripeService` class. Its methods call the gateway step by step, change
  only the gateway fields their `modifies` frames name, and return the user
  record as it stands afterwards.

A sixth module, `Scenarios` (scenarios.dfy), describes whole request sequences
against a fresh gateway. Each one states what the sequence answers, using
only the contracts.

The model follows the code where an idealised reading of the service would
differ:

- The subscription id is written before the item id is read
  (service/stripe_service.py:52-53). An answer without items raises
  `IndexError` and leaves the subscription id written.
- A metadata value that is not a number makes `float()` raise
  (service/stripe_service.py:174-175). Only a missing key reads as 0.
- `hasattr(user, "subscription")` always holds for a `User`. So a user whose
  `subscription` is `None` raises `AttributeError`:
  - after a customer has been created (service/stripe_service.py:27-28);
  - in the guard of `add_credit_for_usage_based` (service/stripe_service.py:66).

## Model

| member | source | states |
|---|---|---|
| `UserModel.DefaultSubscriptionIsEmpty` | user_model.py:4-8 | a `Subscription()` holds no customer, subscription or item id |
| `UserModel.UserWithoutSubscription` | user_model.py:10-15 | a `User` built without a subscription record has `subscription == None` |
| `UserModel.CreateDummyUser` | user_model.py:17-23 | the dummy user is "user_123", "Test User", "test@example.com" with a present, empty subscription record |
| `Service.DummyUserCreatesCustomer` | user_model.py:17-23 | the dummy user has a record but no stored customer id, so its first resolution creates a customer and keeps the write-back |
| `Decimal.ParseDigits` | service/stripe_service.py:174-175 | reading back the decimal string a number is stored as gives that number |
| `Service.StoredCustomerId` | service/stripe_service.py:10-12 | the stored id is present exactly when there is a record whose customer id is neither None nor empty |
| `Service.WithCustomerId` | service/stripe_service.py:27-28 | the write-back changes only `stripeCustomerId`, and the next lookup finds the new id |
| `Service.WriteBackOfStoredIdKeepsUser` | service/stripe_service.py:12-15 | writing back the id already stored leaves the user unchanged |
| `Service.StripeService.ResolvedId` | service/stripe_service.py:12-25 | the resolved id is never empty: it is the stored id or a new gateway id |
| `Service.StripeService.HandleStripeCustomer` | service/stripe_service.py:9-30 | a stored id the gateway retrieves is returned and nothing changes. Otherwise exactly one fresh customer is created with the user's email, name and `user_id` metadata, its id is returned and written back, and only `stripeCustomerId` changes. A create error raises; a missing record raises `AttributeError` after the creation |
| `Service.CardSummaries` | service/stripe_service.py:124-129 | one summary per listed card, same length, same order |
| `Service.PaymentMethodReport` | service/stripe_service.py:121-135 | `hasPaymentMethod` holds exactly when the listing is non-empty; the cards match the listing one for one (so they are `[]` otherwise) |
| `Service.StripeService.CheckCustomerPaymentMethod` | service/stripe_service.py:114-135 | resolves the customer and answers the report of that customer's card listing; a resolution error propagates |
| `Service.WithSubscriptionId` | service/stripe_service.py:51-52 | the first write-back changes only `stripeSubscriptionId` |
| `Service.WithSubscriptionItemId` | service/stripe_service.py:53 | the second write-back changes only `stripeSubscriptionItemId` |
| `Service.CatchStripeError` | service/stripe_service.py:59-63 | the handler both usage methods share (also lines 92-96): it answers exactly when the exception is a StripeError, and then with the failure built from `str(e)`; any other exception propagates unchanged |
| `Service.StripeService.AddUsageBasedBillingInfo` | service/stripe_service.py:32-63 | a failing first resolution raises, with the gateway's customers as that resolution left them and no subscription. No card: the fixed "No payment method found" failure and no subscription. With a card, when retrieval succeeds, the second resolution reuses the first id and creates nothing. When the gateway rejects every retrieve during the call, each resolution creates its own customer: two distinct live customers, both carrying the user's email, name and `user_id` metadata, and the second is subscribed. The subscription step is as `Subscribe` states |
| `Service.StripeService.ResolveAndSubscribe` | service/stripe_service.py:41-63 | the `try` block: the second resolution's error is answered as `success=False` when it is a StripeError and propagates otherwise; a successful resolution is subscribed as `Subscribe` states |
| `Service.StripeService.Subscribe` | service/stripe_service.py:43-63 | one subscription to the configured price for the resolved customer; its id and then its first item id are written back; no item raises `IndexError` with only the subscription id written; a StripeError gives `success=False` with its text and creates nothing |
| `Service.HasActiveSubscription` | service/stripe_service.py:66-70 | raises `AttributeError` exactly when there is no record; passes exactly when a non-empty item id is stored |
| `Service.SubscribedUserPassesGuard` | service/stripe_service.py:53-66 | a user whose item id was written back passes the usage guard |
| `Service.StripeService.AddCreditForUsageBased` | service/stripe_service.py:65-96 | without an item id: the "No active subscription" failure, no resolution, no event. Otherwise exactly one "api.request" event for the resolved customer with `value = quantity`, answered with the gateway's timestamp, status and created (None when absent); a StripeError gives `success=False` |
| `Service.StripeService.CreateSetupIntent` | service/stripe_service.py:98-105 | one off-session card setup intent for the resolved customer; answers its client secret |
| `Service.StripeService.CreateCustomerPortalSession` | service/stripe_service.py:107-112 | one portal session for the resolved customer; answers its URL |
| `Service.CheckoutRequestFor` | service/stripe_service.py:141-163 | one "usd" line item of quantity 1 at `100 * price` cents named "<credits> Credits", payment mode, promotion codes allowed, metadata keys `userId`, `credit`, `price` |
| `Service.StripeService.CreateCheckoutSession` | service/stripe_service.py:137-170 | any exception, the resolution's included, becomes `{"error": str(e)}`; otherwise one fresh unpaid session built from that request, answering its URL |
| `Service.MetadataNumber` | service/stripe_service.py:174-175 | a missing key reads as 0; a present value reads as its number and raises `ValueError` when it is not one |
| `Service.PaymentVerdict` | service/stripe_service.py:174-186 | raises exactly when a metadata value is malformed; otherwise success holds exactly when the status is "paid". Only then are credit and price given; a failure has neither |
| `Service.CheckoutRoundTrip` | service/stripe_service.py:158-182 | the metadata a session is created with verifies as the same credits and price when paid, and as a failure otherwise |
| `Service.MissingMetadataReadsAsZero` | service/stripe_service.py:174-182 | a session without the two keys verifies without raising, with 0 credits and price 0 when paid |
| `Service.MalformedCreditRaises` | service/stripe_service.py:174 | a credit value that is not a number raises `ValueError`, paid or not |
| `Service.StripeService.VerifyPayment` | service/stripe_service.py:172-186 | an unknown session id raises; otherwise the answer is the verdict on the session's metadata and status, and nothing is written |
| `Scenarios.ResolveDummyUserTwice` | service/stripe_service.py:9-30 | resolving the dummy user twice creates one customer and answers the same id both times |
| `Scenarios.StaleCustomerIsReplaced` | service/stripe_service.py:12-28 | a stored customer id the gateway no longer retrieves is replaced by a new one, whose id is stored |
| `Scenarios.ResolveUserWithoutRecord` | service/stripe_service.py:18-28 | a user without a record gets a customer created, then raises `AttributeError`, and stays unchanged |
| `Scenarios.SubscribeWithoutCard` | service/stripe_service.py:32-70 | without a card no subscription is created, and usage then finds no active subscription and emits nothing |
| `Scenarios.SubscribeThenReportUsage` | service/stripe_service.py:32-105 | in the application's order (setup intent, card saved for the stored customer, subscription, usage) exactly one customer and one subscription are created, the dummy user stores their ids, and the usage becomes the single meter event "api.request" for that customer with value 3 |
| `Scenarios.TwoCheckouts` | service/stripe_service.py:137-170 | two checkouts in a row answer the URLs of the first and the next session id |
| `Scenarios.CheckoutThenVerify` | service/stripe_service.py:137-186 | the 100-credit checkout at price 10 verifies as failed before payment and as 100 credits at 10 after |

## Left out

- The web layer in main.py (FastAPI routes, uvicorn startup) and its date helpers `different_in_days` and `previous_day`, which read the clock.
- pydantic_model/test.py, a MongoDB insert script outside the billing service.
- `async`/`await` and concurrent requests. Each call runs alone, so the duplicate customer two simultaneous first requests would create is not modelled.
- Configuration from the environment: the API key is not modelled; `STRIPE_PRICE_ID` is the `priceId` given to the service's constructor.
- The hard-coded success URL of the checkout session, and the `expand` argument of the subscription request: the model inspects neither the request nor the response payloads these shape.
- Deleted customers: Stripe's `Customer.retrieve` answers a deleted customer with an object marked `deleted` instead of raising, so the service would keep reusing its id. `StripeGateway.Gateway.ForgetCustomer` stands only for an id that `Customer.retrieve` rejects; deletion itself is not modelled.
- Stripe's wire formats and SDK internals. Object ids and URLs are stand-ins: a prefix followed by a counter. `str()` of a StripeError is its message.
- Failures of `PaymentMethod.list`, `SetupIntent.create` and `billing_portal.Session.create`: the source lets them propagate; the modelled gateway always answers these three.
- Service.StripeService.AddUsageBasedBillingInfo: whether `Customer.retrieve` fails is fixed for the whole call, so a retrieve that succeeds in the first resolution (service/stripe_service.py:34, via line 115) and fails only in the second (line 42) is not modelled. In the source that transient failure creates a second customer and subscribes it while the card stays on the first. Under the model's always-failing retrieve the two-customer branch is stated, but a customer it creates has no card yet, so from a gateway reached by the service's own calls that branch answers "No payment method found".
- Service.StripeService.CreateCheckoutSession: prices and credits are natural numbers, so `int(price * 100)` is exact. Fractional and negative prices, and the float arithmetic they would need, are not modelled.
- Service.MetadataNumber: `float()` is modelled on unsigned digit strings only. Signs, fractions, exponents, surrounding whitespace, underscores, "inf" and "nan", which Python also accepts, are read as malformed. The service itself only stores digit strings.
- Service.PaymentVerdict: the credit and price come back as whole numbers, where Python gives the equal floats (100.0 for "100").
- The user record is a value that each method returns updated, rather than an object shared by reference. main.py keeps its one user and passes it to every call, so the effect is the same.
