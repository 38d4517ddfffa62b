/** Whole request sequences against a fresh gateway, as the application issues
    them for its single dummy user: each method states what the sequence
    answers, using only the contracts of the service and the gateway. */
module Scenarios {
  import opened Failures
  import opened UserModel
  import opened StripeGateway
  import opened Service

  /** A gateway whose calls all succeed and whose meter-event answers carry no
      timestamp, status or creation time. */
  function Succeeding(): (responses: Responses)
    ensures !responses.retrieveFails && responses.customerCreateError.None?
    ensures responses.subscriptionError.None? && !responses.subscriptionWithoutItems
    ensures responses.meterEventError.None? && responses.checkoutError.None?
  {
    Responses(false, None, None, false, None, None, None, None, None)
  }

  /** Resolving the dummy user twice: the first call creates the gateway's
      first customer and stores it, the second reuses it. */
  method ResolveDummyUserTwice() returns (first: Outcome<string>, second: Outcome<string>, created: nat)
    ensures first == Returned(ObjectId(CustomerPrefix, 0))
    ensures second == first
    ensures created == 1
  {
    var gateway := new Gateway(Succeeding());
    var service := new StripeService(gateway, "price_metered");
    var user := CreateDummyUser();
    first, user := service.HandleStripeCustomer(user);
    second, user := service.HandleStripeCustomer(user);
    created := |gateway.createdCustomers|;
  }

  /** A stored customer id that the gateway no longer retrieves is replaced
      by one new customer, whose id is written back. */
  method StaleCustomerIsReplaced() returns (first: Outcome<string>, second: Outcome<string>, stored: Option<string>)
    ensures first.Returned? && second.Returned? && first != second
    ensures stored == Some(second.value)
  {
    var gateway := new Gateway(Succeeding());
    var service := new StripeService(gateway, "price_metered");
    var user := CreateDummyUser();
    first, user := service.HandleStripeCustomer(user);
    gateway.ForgetCustomer(first.value);
    second, user := service.HandleStripeCustomer(user);
    stored := user.subscription.value.stripeCustomerId;
    ObjectIdInjective(CustomerPrefix, 0, 1);
  }

  /** A user built without a subscription record: a customer is created, then
      the write-back raises, and nothing is stored. */
  method ResolveUserWithoutRecord() returns (r: Outcome<string>, created: nat, user': User)
    ensures r == Raised(AttributeError("stripeCustomerId"))
    ensures created == 1
    ensures user' == User("user_1", "Ann", "ann@example.com")
  {
    var gateway := new Gateway(Succeeding());
    var service := new StripeService(gateway, "price_metered");
    r, user' := service.HandleStripeCustomer(User("user_1", "Ann", "ann@example.com"));
    created := |gateway.createdCustomers|;
  }

  /** Subscribing the dummy user with no card on file fails without creating
      a subscription, and reporting usage then finds no active subscription. */
  method SubscribeWithoutCard()
    returns (billing: Outcome<BillingResult>, credit: Outcome<CreditResult>, subscriptions: nat, events: nat)
    ensures billing == Returned(BillingFailed(NoPaymentMethodMessage))
    ensures credit == Returned(CreditFailed(NoActiveSubscriptionMessage))
    ensures subscriptions == 0 && events == 0
  {
    var gateway := new Gateway(Succeeding());
    var service := new StripeService(gateway, "price_metered");
    var user := CreateDummyUser();
    billing, user := service.AddUsageBasedBillingInfo(user);
    credit, user := service.AddCreditForUsageBased(user, 5);
    subscriptions := |gateway.subscriptions|;
    events := |gateway.meterEvents|;
  }

  /** The application's order for the dummy user: a setup intent creates the
      customer, the card the customer then confirms is saved for the stored
      id, the user is subscribed, and usage is reported. Everything happens
      under one customer and one subscription, and the usage becomes one
      meter event for that customer. */
  method SubscribeThenReportUsage(card: Card)
    returns (billing: Outcome<BillingResult>, credit: Outcome<CreditResult>, user': User,
             customers: nat, subscriptions: nat, events: seq<MeterEventRequest>)
    ensures billing.Returned? && billing.value.SubscriptionAdded?
    ensures credit == Returned(CreditAdded(MeterEventReport(MeterEventName, None, None, None)))
    ensures user'.subscription == Some(Subscription(
      Some(ObjectId(CustomerPrefix, 0)),
      Some(ObjectId(SubscriptionPrefix, 0)),
      Some(ObjectId(SubscriptionItemPrefix, 0))))
    ensures customers == 1 && subscriptions == 1
    ensures events == [MeterEventRequest(MeterEventName, ObjectId(CustomerPrefix, 0), 3)]
  {
    var gateway := new Gateway(Succeeding());
    var service := new StripeService(gateway, "price_metered");
    var intent;
    intent, user' := service.CreateSetupIntent(CreateDummyUser());
    gateway.AttachPaymentMethod(user'.subscription.value.stripeCustomerId.value, PaymentMethod("pm_0", card));
    billing, user' := service.AddUsageBasedBillingInfo(user');
    credit, user' := service.AddCreditForUsageBased(user', 3);
    customers := |gateway.createdCustomers|;
    subscriptions := |gateway.subscriptions|;
    events := gateway.meterEvents;
  }

  /** The application's checkout for 100 credits at 10: before payment it
      verifies as failed, after payment as 100 credits at price 10. */
  method CheckoutThenVerify() returns (before: Outcome<Verification>, after: Outcome<Verification>)
    ensures before == Returned(Verification(false, None, None, PaymentFailedMessage))
    ensures after == Returned(Verification(true, Some(100), Some(10), PaymentSuccessfulMessage))
  {
    var gateway := new Gateway(Succeeding());
    var service := new StripeService(gateway, "price_metered");
    var user := CreateDummyUser();
    var created;
    created, user := service.CreateCheckoutSession(user, 10, 100);
    var id := ObjectId(CheckoutSessionPrefix, 0);
    CheckoutRoundTrip(ObjectId(CustomerPrefix, 0), "user_123", 10, 100, "unpaid");
    CheckoutRoundTrip(ObjectId(CustomerPrefix, 0), "user_123", 10, 100, "paid");
    before := service.VerifyPayment(user, id);
    gateway.CompleteCheckout(id);
    after := service.VerifyPayment(user, id);
  }

  /** Two checkouts in a row open two sessions, the second under the next id. */
  method TwoCheckouts() returns (first: CheckoutResult, second: CheckoutResult)
    ensures first == CheckoutCreated(CheckoutUrl(ObjectId(CheckoutSessionPrefix, 0)))
    ensures second == CheckoutCreated(CheckoutUrl(ObjectId(CheckoutSessionPrefix, 1)))
  {
    var gateway := new Gateway(Succeeding());
    var service := new StripeService(gateway, "price_metered");
    var user := CreateDummyUser();
    first, user := service.CreateCheckoutSession(user, 10, 100);
    second, user := service.CreateCheckoutSession(user, 10, 100);
  }
}
