/** The billing service: it resolves a Stripe customer for a user, subscribes
    the customer to the metered price, reports usage as meter events, opens
    setup, portal and checkout sessions, and verifies a checkout's payment.
    The user record is a value: a method that writes to it returns the record
    as it stands afterwards. Every method returns an `Outcome`, so that an
    exception the source lets escape is a `Raised` result. */
module Service {
  import opened Failures
  import opened UserModel
  import opened StripeGateway
  import Decimal

  const NoPaymentMethodMessage := "No payment method found. Please add a card first."
  const NoActiveSubscriptionMessage := "No active subscription found. Please subscribe first."
  const MeterEventName := "api.request"
  const PaymentSuccessfulMessage := "Payment successful"
  const PaymentFailedMessage := "Payment failed"

  datatype CardSummary = CardSummary(last4: string, brand: string, expMonth: nat, expYear: nat)

  /** `{"has_payment_method": ..., "cards": [...]}` */
  datatype PaymentMethodInfo = PaymentMethodInfo(hasPaymentMethod: bool, cards: seq<CardSummary>)

  /** `{"success": True, "subscription": ...}` or `{"success": False, "error": ...}` */
  datatype BillingResult = SubscriptionAdded(subscription: SubscriptionObject) | BillingFailed(error: string)

  datatype MeterEventReport = MeterEventReport(
    eventName: string, timestamp: Option<int>, status: Option<string>, created: Option<int>)

  /** `{"success": True, "meter_event": ...}` or `{"success": False, "error": ...}` */
  datatype CreditResult = CreditAdded(meterEvent: MeterEventReport) | CreditFailed(error: string)

  /** `{"url": ...}` or `{"error": ...}` */
  datatype CheckoutResult = CheckoutCreated(url: string) | CheckoutFailed(error: string)

  /** `{"success": ..., "credit": ..., "price": ..., "message": ...}`; a failed
      payment has no credit and no price key. */
  datatype Verification = Verification(
    success: bool, credit: Option<nat>, price: Option<nat>, message: string)

  /** The handler `except stripe.error.StripeError as e` shared by
      add_usage_based_billing_info and add_credit_for_usage_based: a
      StripeError is answered as the failure `failed(str(e))`, and any other
      exception keeps propagating unchanged. */
  function CatchStripeError<T>(e: Error, failed: string -> T): (r: Outcome<T>)
    ensures r.Returned? <==> e.StripeError?
    ensures r.Returned? ==> r.value == failed(Describe(e))
    ensures r.Raised? ==> r.error == e
  {
    if e.StripeError? then Returned(failed(Describe(e))) else Raised(e)
  }

  /** Python's truth value of an optional string. */
  predicate Truthy(s: Option<string>)
  {
    s.Some? && s.value != ""
  }

  /** The customer id the user already has, as the nested `getattr` reads it
      and the `if` tests it: absent when there is no subscription record,
      and when the id is None or empty. */
  function StoredCustomerId(user: User): (r: Option<string>)
    ensures r.Some? <==> user.subscription.Some? && Truthy(user.subscription.value.stripeCustomerId)
    ensures r.Some? ==> r == user.subscription.value.stripeCustomerId && r.value != ""
  {
    match user.subscription
    case None => None
    case Some(record) => if Truthy(record.stripeCustomerId) then record.stripeCustomerId else None
  }

  /** `user.subscription.stripeCustomerId = customer`: only that field changes,
      and the next lookup finds the customer. */
  function WithCustomerId(user: User, customer: string): (u: User)
    requires user.subscription.Some?
    ensures u.id == user.id && u.name == user.name && u.email == user.email
    ensures u.subscription.Some? && u.subscription.value.stripeCustomerId == Some(customer)
    ensures u.subscription.value.stripeSubscriptionId == user.subscription.value.stripeSubscriptionId
    ensures u.subscription.value.stripeSubscriptionItemId == user.subscription.value.stripeSubscriptionItemId
    ensures customer != "" ==> StoredCustomerId(u) == Some(customer)
  {
    user.(subscription := Some(user.subscription.value.(stripeCustomerId := Some(customer))))
  }

  /** `user.subscription.stripeSubscriptionId = id`: only that field changes. */
  function WithSubscriptionId(user: User, id: string): (u: User)
    requires user.subscription.Some?
    ensures u.id == user.id && u.name == user.name && u.email == user.email
    ensures u.subscription.Some? && u.subscription.value.stripeSubscriptionId == Some(id)
    ensures u.subscription.value.stripeCustomerId == user.subscription.value.stripeCustomerId
    ensures u.subscription.value.stripeSubscriptionItemId == user.subscription.value.stripeSubscriptionItemId
  {
    user.(subscription := Some(user.subscription.value.(stripeSubscriptionId := Some(id))))
  }

  /** `user.subscription.stripeSubscriptionItemId = id`: only that field changes. */
  function WithSubscriptionItemId(user: User, id: string): (u: User)
    requires user.subscription.Some?
    ensures u.id == user.id && u.name == user.name && u.email == user.email
    ensures u.subscription.Some? && u.subscription.value.stripeSubscriptionItemId == Some(id)
    ensures u.subscription.value.stripeCustomerId == user.subscription.value.stripeCustomerId
    ensures u.subscription.value.stripeSubscriptionId == user.subscription.value.stripeSubscriptionId
  {
    user.(subscription := Some(user.subscription.value.(stripeSubscriptionItemId := Some(id))))
  }

  /** Writing back the id a user already has leaves the user as it was. */
  lemma WriteBackOfStoredIdKeepsUser(user: User)
    requires StoredCustomerId(user).Some?
    ensures WithCustomerId(user, StoredCustomerId(user).value) == user
  {
  }

  /** The guard of add_credit_for_usage_based. `hasattr(user, "subscription")`
      always holds for a `User`, so the guard reads the item id of a missing
      subscription record and raises; otherwise it passes exactly when an item
      id is stored and non-empty. */
  function HasActiveSubscription(user: User): (r: Outcome<bool>)
    ensures r.Raised? <==> user.subscription.None?
    ensures r.Raised? ==> r.error == AttributeError("stripeSubscriptionItemId")
    ensures r == Returned(true) <==>
      user.subscription.Some? && Truthy(user.subscription.value.stripeSubscriptionItemId)
  {
    match user.subscription
    case None => Raised(AttributeError("stripeSubscriptionItemId"))
    case Some(record) => Returned(Truthy(record.stripeSubscriptionItemId))
  }

  /** A user whose subscription item id has been written passes the guard. */
  lemma SubscribedUserPassesGuard(user: User, itemId: string)
    requires user.subscription.Some? && itemId != ""
    ensures HasActiveSubscription(WithSubscriptionItemId(user, itemId)) == Returned(true)
  {
  }

  function Summarize(paymentMethod: PaymentMethod): CardSummary
  {
    var card := paymentMethod.card;
    CardSummary(card.last4, card.brand, card.expMonth, card.expYear)
  }

  /** The list comprehension over the card listing: one summary per card, in
      the listing's order. */
  function CardSummaries(methods: seq<PaymentMethod>): (cards: seq<CardSummary>)
    ensures |cards| == |methods|
    ensures forall i :: 0 <= i < |methods| ==> cards[i] == Summarize(methods[i])
  {
    if methods == [] then [] else [Summarize(methods[0])] + CardSummaries(methods[1..])
  }

  /** The answer of check_customer_payment_method for a card listing: a card
      is on file exactly when the listing is non-empty. */
  function PaymentMethodReport(methods: seq<PaymentMethod>): (info: PaymentMethodInfo)
    ensures info.hasPaymentMethod <==> |methods| > 0
    ensures |info.cards| == |methods|
    ensures forall i :: 0 <= i < |methods| ==> info.cards[i] == Summarize(methods[i])
  {
    if |methods| > 0 then PaymentMethodInfo(true, CardSummaries(methods))
    else PaymentMethodInfo(false, [])
  }

  /** The checkout request for `credits` credits at `price` whole currency
      units: one line item, charged in cents, and the metadata the
      verification reads back. */
  function CheckoutRequestFor(customer: string, userId: string, price: nat, credits: nat)
    : (request: CheckoutRequest)
    ensures request.customer == customer && request.paymentMethodTypes == ["card"]
    ensures request.mode == "payment" && request.allowPromotionCodes
    ensures |request.lineItems| == 1
    ensures request.lineItems[0].unitAmount == 100 * price && request.lineItems[0].quantity == 1
    ensures request.lineItems[0].currency == "usd"
    ensures request.lineItems[0].productName == Decimal.Digits(credits) + " Credits"
    ensures request.metadata.Keys == {"userId", "credit", "price"}
    ensures request.metadata["userId"] == userId
  {
    var item := LineItem(
      "usd", Decimal.Digits(credits) + " Credits",
      Decimal.Digits(credits) + " processing minutes for audio separation",
      100 * price, 1);
    CheckoutRequest(
      customer, ["card"], [item], true, "payment",
      map["userId" := userId, "credit" := Decimal.Digits(credits), "price" := Decimal.Digits(price)])
  }

  /** `float(metadata.get(key, 0))`: a missing key reads as 0, a value that is
      not a number raises. */
  function MetadataNumber(metadata: map<string, string>, key: string): (r: Outcome<nat>)
    ensures key !in metadata ==> r == Returned(0)
    ensures key in metadata ==> (r.Returned? <==> Decimal.Parse(metadata[key]).Some?)
    ensures key in metadata && r.Returned? ==> Decimal.Parse(metadata[key]) == Some(r.value)
    ensures r.Raised? ==> key in metadata && r.error == ValueError(metadata[key])
  {
    if key !in metadata then Returned(0)
    else match Decimal.Parse(metadata[key])
      case Some(n) => Returned(n)
      case None => Raised(ValueError(metadata[key]))
  }

  /** The decision of verify_payment on a retrieved session. Both metadata
      numbers are read before the status is looked at, so a malformed value
      raises whatever the status. The payment succeeds exactly when the status
      is "paid"; only then are credit and price reported. */
  function PaymentVerdict(metadata: map<string, string>, paymentStatus: string)
    : (r: Outcome<Verification>)
    ensures r.Raised? <==>
      MetadataNumber(metadata, "credit").Raised? || MetadataNumber(metadata, "price").Raised?
    ensures r.Returned? ==> (r.value.success <==> paymentStatus == "paid")
    ensures r.Returned? && paymentStatus == "paid" ==>
      r.value.credit == Some(MetadataNumber(metadata, "credit").value) &&
      r.value.price == Some(MetadataNumber(metadata, "price").value) &&
      r.value.message == PaymentSuccessfulMessage
    ensures r.Returned? && paymentStatus != "paid" ==>
      r.value.credit == None && r.value.price == None && r.value.message == PaymentFailedMessage
  {
    match MetadataNumber(metadata, "credit")
    case Raised(e) => Raised(e)
    case Returned(credit) =>
      match MetadataNumber(metadata, "price")
      case Raised(e) => Raised(e)
      case Returned(price) =>
        if paymentStatus == "paid" then
          Returned(Verification(true, Some(credit), Some(price), PaymentSuccessfulMessage))
        else
          Returned(Verification(false, None, None, PaymentFailedMessage))
  }

  /** The metadata a checkout session is created with reads back as the
      credits and the price it was created for. */
  lemma CheckoutRoundTrip(customer: string, userId: string, price: nat, credits: nat, status: string)
    ensures PaymentVerdict(CheckoutRequestFor(customer, userId, price, credits).metadata, status) ==
      if status == "paid"
      then Returned(Verification(true, Some(credits), Some(price), PaymentSuccessfulMessage))
      else Returned(Verification(false, None, None, PaymentFailedMessage))
  {
    Decimal.ParseDigits(credits);
    Decimal.ParseDigits(price);
  }

  /** A session without the two metadata keys verifies with zero credit and price. */
  lemma MissingMetadataReadsAsZero(metadata: map<string, string>, status: string)
    requires "credit" !in metadata && "price" !in metadata
    ensures PaymentVerdict(metadata, status).Returned?
    ensures status == "paid" ==>
      PaymentVerdict(metadata, status).value == Verification(true, Some(0), Some(0), PaymentSuccessfulMessage)
  {
  }

  /** A credit value that is not a number makes verification raise, paid or not. */
  lemma MalformedCreditRaises(metadata: map<string, string>, status: string)
    requires "credit" in metadata && Decimal.Parse(metadata["credit"]).None?
    ensures PaymentVerdict(metadata, status) == Raised(ValueError(metadata["credit"]))
  {
  }

  class StripeService {
    const gateway: Gateway
    const priceId: string   // the STRIPE_PRICE_ID setting

    constructor (gateway: Gateway, priceId: string)
      ensures this.gateway == gateway && this.priceId == priceId
    {
      this.gateway := gateway;
      this.priceId := priceId;
    }

    /** The stored customer id is set and the gateway still retrieves it. */
    predicate Reuses(user: User)
      reads gateway
    {
      StoredCustomerId(user).Some? && gateway.Retrievable(StoredCustomerId(user).value)
    }

    /** Resolving `user` now creates a gateway customer. */
    predicate CreatesCustomer(user: User)
      reads gateway
    {
      !Reuses(user) && gateway.responses.customerCreateError.None?
    }

    /** The customer id resolving `user` now answers with, when it answers. */
    function ResolvedId(user: User): (id: string)
      reads gateway
      ensures id != ""
    {
      if Reuses(user) then StoredCustomerId(user).value else gateway.NextCustomerId()
    }

    /** The exception resolving `user` now raises, if any. */
    function ResolutionError(user: User): Option<Error>
      reads gateway
    {
      if Reuses(user) then None
      else if gateway.responses.customerCreateError.Some? then
        Some(StripeError(gateway.responses.customerCreateError.value))
      else if user.subscription.None? then Some(AttributeError("stripeCustomerId"))
      else None
    }

    /** The gateway's customers after one resolution of `user` that started in
        the old state. */
    twostate predicate CustomersAfterResolving(user: User)
      reads gateway
    {
      if old(CreatesCustomer(user)) then
        gateway.customers == old(gateway.customers) + {old(gateway.NextCustomerId())} &&
        gateway.createdCustomers == old(gateway.createdCustomers) +
          [CustomerRecord(old(gateway.NextCustomerId()), user.email, user.name, map["user_id" := user.id])]
      else
        gateway.customers == old(gateway.customers) &&
        gateway.createdCustomers == old(gateway.createdCustomers)
    }

    /** handle_stripe_customer: reuse the stored customer id while the gateway
        retrieves it; otherwise create exactly one customer carrying the
        user's email, name and id, and write its id back onto the user. */
    method HandleStripeCustomer(user: User) returns (r: Outcome<string>, user': User)
      requires gateway.Valid()
      modifies gateway`customers, gateway`createdCustomers
      ensures gateway.Valid()
      ensures old(Reuses(user)) ==>
        r == Returned(StoredCustomerId(user).value) && user' == user &&
        gateway.customers == old(gateway.customers) &&
        gateway.createdCustomers == old(gateway.createdCustomers)
      ensures !old(Reuses(user)) && gateway.responses.customerCreateError.Some? ==>
        r == Raised(StripeError(gateway.responses.customerCreateError.value)) && user' == user &&
        gateway.customers == old(gateway.customers) &&
        gateway.createdCustomers == old(gateway.createdCustomers)
      ensures old(CreatesCustomer(user)) ==>
        var id := old(gateway.NextCustomerId());
        id !in old(gateway.customers) &&
        gateway.customers == old(gateway.customers) + {id} &&
        gateway.createdCustomers == old(gateway.createdCustomers) +
          [CustomerRecord(id, user.email, user.name, map["user_id" := user.id])] &&
        (user.subscription.Some? ==> r == Returned(id) && user' == WithCustomerId(user, id)) &&
        (user.subscription.None? ==> r == Raised(AttributeError("stripeCustomerId")) && user' == user)
      ensures CustomersAfterResolving(user)
      ensures r.Raised? <==> old(ResolutionError(user)).Some?
      ensures r.Raised? ==> r.error == old(ResolutionError(user)).value && user' == user
      ensures r.Returned? ==>
        r.value == old(ResolvedId(user)) && r.value in gateway.customers &&
        user' == WithCustomerId(user, r.value) && StoredCustomerId(user') == Some(r.value)
    {
      user' := user;
      var stored := StoredCustomerId(user);
      if stored.Some? {
        var found := gateway.RetrieveCustomer(stored.value);
        if found {
          r := Returned(stored.value);
          WriteBackOfStoredIdKeepsUser(user);
          return;
        }
      }
      var created := gateway.CreateCustomer(user.email, user.name, map["user_id" := user.id]);
      if created.Raised? {
        r := Raised(created.error);
        return;
      }
      if user.subscription.None? {
        r := Raised(AttributeError("stripeCustomerId"));
        return;
      }
      user' := WithCustomerId(user, created.value);
      r := Returned(created.value);
    }

    /** check_customer_payment_method: resolve the customer, list its cards,
        and report whether there is one. */
    method CheckCustomerPaymentMethod(user: User) returns (r: Outcome<PaymentMethodInfo>, user': User)
      requires gateway.Valid()
      modifies gateway`customers, gateway`createdCustomers
      ensures gateway.Valid() && CustomersAfterResolving(user)
      ensures old(ResolutionError(user)).Some? ==>
        r == Raised(old(ResolutionError(user)).value) && user' == user
      ensures old(ResolutionError(user)).None? ==>
        r == Returned(PaymentMethodReport(gateway.CardsOf(old(ResolvedId(user))))) &&
        user' == WithCustomerId(user, old(ResolvedId(user))) &&
        old(ResolvedId(user)) in gateway.customers
    {
      var customer;
      customer, user' := HandleStripeCustomer(user);
      if customer.Raised? {
        r := Raised(customer.error);
        return;
      }
      var methods := gateway.ListPaymentMethods(customer.value);
      r := Returned(PaymentMethodReport(methods));
    }

    /** The subscription step of add_usage_based_billing_info for `customer`,
        already written onto `user`, taking the gateway's subscriptions from
        `before` to now: a StripeError becomes a failure value; otherwise one
        subscription to the configured price is created, its id is written,
        then its first item's id, and an answer without items raises between
        the two writes, keeping the first. */
    predicate SubscribedAs(
      customer: string, user: User, before: seq<SubscriptionObject>, r: Outcome<BillingResult>, user': User)
      reads gateway
    {
      user.subscription.Some? &&
      if gateway.responses.subscriptionError.Some? then
        r == Returned(BillingFailed(gateway.responses.subscriptionError.value)) &&
        user' == user && gateway.subscriptions == before
      else
        var n := |before|;
        var s := SubscriptionObject(
          ObjectId(SubscriptionPrefix, n), customer, priceId,
          if gateway.responses.subscriptionWithoutItems then [] else [ObjectId(SubscriptionItemPrefix, n)]);
        gateway.subscriptions == before + [s] &&
        if gateway.responses.subscriptionWithoutItems then
          r == Raised(IndexError) && user' == WithSubscriptionId(user, s.id)
        else
          r == Returned(SubscriptionAdded(s)) &&
          user' == WithSubscriptionItemId(WithSubscriptionId(user, s.id), s.itemIds[0])
    }

    /** The subscription step itself, for a resolved customer. */
    method Subscribe(customer: string, user: User) returns (r: Outcome<BillingResult>, user': User)
      requires user.subscription.Some?
      modifies gateway`subscriptions
      ensures SubscribedAs(customer, user, old(gateway.subscriptions), r, user')
    {
      user' := user;
      var created := gateway.CreateSubscription(customer, priceId);
      match created
      case Raised(e) =>
        r := CatchStripeError(e, message => BillingFailed(message));
      case Returned(subscription) =>
        user' := WithSubscriptionId(user', subscription.id);
        if |subscription.itemIds| == 0 {
          r := Raised(IndexError);
          return;
        }
        user' := WithSubscriptionItemId(user', subscription.itemIds[0]);
        r := Returned(SubscriptionAdded(subscription));
    }

    /** add_usage_based_billing_info: without a card on file, answer "no
        payment method" and create no subscription; otherwise resolve the
        customer a second time and subscribe it to the metered price. On a
        stable gateway the second resolution reuses the first one's id; when
        retrieval fails, it creates a second customer. */
    method AddUsageBasedBillingInfo(user: User) returns (r: Outcome<BillingResult>, user': User)
      requires gateway.Valid()
      modifies gateway`customers, gateway`createdCustomers, gateway`subscriptions
      ensures gateway.Valid()
      ensures |gateway.subscriptions| <= |old(gateway.subscriptions)| + 1
      ensures old(ResolutionError(user)).Some? ==>
        r == Raised(old(ResolutionError(user)).value) && user' == user &&
        gateway.subscriptions == old(gateway.subscriptions) && CustomersAfterResolving(user)
      ensures old(ResolutionError(user)).None? && gateway.CardsOf(old(ResolvedId(user))) == [] ==>
        r == Returned(BillingFailed(NoPaymentMethodMessage)) &&
        user' == WithCustomerId(user, old(ResolvedId(user))) &&
        gateway.subscriptions == old(gateway.subscriptions) && CustomersAfterResolving(user)
      ensures old(ResolutionError(user)).None? && gateway.CardsOf(old(ResolvedId(user))) != [] &&
              !gateway.responses.retrieveFails ==>
        CustomersAfterResolving(user) &&
        SubscribedAs(old(ResolvedId(user)), WithCustomerId(user, old(ResolvedId(user))), old(gateway.subscriptions), r, user')
      ensures old(ResolutionError(user)).None? && gateway.CardsOf(old(ResolvedId(user))) != [] &&
              gateway.responses.retrieveFails ==>
        var n := |old(gateway.createdCustomers)|;
        var first, second := ObjectId(CustomerPrefix, n), ObjectId(CustomerPrefix, n + 1);
        var metadata := map["user_id" := user.id];
        first == old(ResolvedId(user)) && first != second &&
        gateway.customers == old(gateway.customers) + {first, second} &&
        gateway.createdCustomers == old(gateway.createdCustomers) +
          [CustomerRecord(first, user.email, user.name, metadata),
           CustomerRecord(second, user.email, user.name, metadata)] &&
        SubscribedAs(second, WithCustomerId(user, second), old(gateway.subscriptions), r, user')
    {
      var info;
      info, user' := CheckCustomerPaymentMethod(user);
      if info.Raised? {
        r := Raised(info.error);
        return;
      }
      if !info.value.hasPaymentMethod {
        r := Returned(BillingFailed(NoPaymentMethodMessage));
        return;
      }
      ghost var n := |old(gateway.createdCustomers)|;
      r, user' := ResolveAndSubscribe(user');
      if gateway.responses.retrieveFails {
        // Neither resolution could reuse an id, so each created one customer.
        var metadata := map["user_id" := user.id];
        var first := CustomerRecord(ObjectId(CustomerPrefix, n), user.email, user.name, metadata);
        var second := CustomerRecord(ObjectId(CustomerPrefix, n + 1), user.email, user.name, metadata);
        assert old(gateway.createdCustomers) + [first] + [second] == old(gateway.createdCustomers) + [first, second];
        ObjectIdInjective(CustomerPrefix, n, n + 1);
      }
    }

    /** The `try` block of add_usage_based_billing_info: resolve the customer
        again and subscribe it; a StripeError from either step is answered as
        a failure. */
    method ResolveAndSubscribe(user: User) returns (r: Outcome<BillingResult>, user': User)
      requires gateway.Valid()
      modifies gateway`customers, gateway`createdCustomers, gateway`subscriptions
      ensures gateway.Valid() && CustomersAfterResolving(user)
      ensures old(ResolutionError(user)).Some? ==>
        var e := old(ResolutionError(user)).value;
        user' == user && gateway.subscriptions == old(gateway.subscriptions) &&
        r == if e.StripeError? then Returned(BillingFailed(Describe(e))) else Raised(e)
      ensures old(ResolutionError(user)).None? ==>
        SubscribedAs(old(ResolvedId(user)), WithCustomerId(user, old(ResolvedId(user))), old(gateway.subscriptions), r, user')
    {
      var customer;
      customer, user' := HandleStripeCustomer(user);
      match customer
      case Raised(e) =>
        r := CatchStripeError(e, message => BillingFailed(message));
      case Returned(id) =>
        r, user' := Subscribe(id, user');
    }

    /** add_credit_for_usage_based: without a subscription item id, answer "no
        active subscription" and touch nothing; otherwise emit exactly one
        "api.request" meter event for the resolved customer and `quantity`. */
    method AddCreditForUsageBased(user: User, quantity: int) returns (r: Outcome<CreditResult>, user': User)
      requires gateway.Valid()
      modifies gateway`customers, gateway`createdCustomers, gateway`meterEvents
      ensures gateway.Valid()
      ensures HasActiveSubscription(user).Raised? ==>
        r == Raised(AttributeError("stripeSubscriptionItemId")) && user' == user && unchanged(gateway)
      ensures HasActiveSubscription(user) == Returned(false) ==>
        r == Returned(CreditFailed(NoActiveSubscriptionMessage)) && user' == user && unchanged(gateway)
      ensures HasActiveSubscription(user) == Returned(true) ==>
        CustomersAfterResolving(user) &&
        if old(ResolutionError(user)).Some? then
          r == Returned(CreditFailed(Describe(old(ResolutionError(user)).value))) && user' == user &&
          gateway.meterEvents == old(gateway.meterEvents)
        else
          user' == WithCustomerId(user, old(ResolvedId(user))) &&
          if gateway.responses.meterEventError.Some? then
            r == Returned(CreditFailed(gateway.responses.meterEventError.value)) &&
            gateway.meterEvents == old(gateway.meterEvents)
          else
            gateway.meterEvents == old(gateway.meterEvents) +
              [MeterEventRequest(MeterEventName, old(ResolvedId(user)), quantity)] &&
            r == Returned(CreditAdded(MeterEventReport(
              MeterEventName, gateway.responses.meterEventTimestamp,
              gateway.responses.meterEventStatus, gateway.responses.meterEventCreated)))
    {
      user' := user;
      var active := HasActiveSubscription(user);
      if active.Raised? {
        r := Raised(active.error);
        return;
      }
      if !active.value {
        r := Returned(CreditFailed(NoActiveSubscriptionMessage));
        return;
      }
      var customer;
      customer, user' := HandleStripeCustomer(user);
      if customer.Raised? {
        r := CatchStripeError(customer.error, message => CreditFailed(message));
        return;
      }
      var event := gateway.CreateMeterEvent(MeterEventName, customer.value, quantity);
      if event.Raised? {
        r := CatchStripeError(event.error, message => CreditFailed(message));
        return;
      }
      var answer := event.value;
      r := Returned(CreditAdded(MeterEventReport(answer.eventName, answer.timestamp, answer.status, answer.created)));
    }

    /** create_setup_intent: an off-session card setup intent for the resolved
        customer; the answer is its client secret. */
    method CreateSetupIntent(user: User) returns (r: Outcome<string>, user': User)
      requires gateway.Valid()
      modifies gateway`customers, gateway`createdCustomers, gateway`setupIntents
      ensures gateway.Valid() && CustomersAfterResolving(user)
      ensures old(ResolutionError(user)).Some? ==>
        r == Raised(old(ResolutionError(user)).value) && user' == user &&
        gateway.setupIntents == old(gateway.setupIntents)
      ensures old(ResolutionError(user)).None? ==>
        user' == WithCustomerId(user, old(ResolvedId(user))) &&
        |gateway.setupIntents| == |old(gateway.setupIntents)| + 1 &&
        var intent := gateway.setupIntents[|old(gateway.setupIntents)|];
        gateway.setupIntents == old(gateway.setupIntents) + [intent] &&
        intent.customer == old(ResolvedId(user)) && intent.paymentMethodTypes == ["card"] &&
        intent.usage == "off_session" && r == Returned(intent.clientSecret)
    {
      var customer;
      customer, user' := HandleStripeCustomer(user);
      if customer.Raised? {
        r := Raised(customer.error);
        return;
      }
      var intent := gateway.CreateSetupIntent(customer.value, ["card"], "off_session");
      r := Returned(intent.clientSecret);
    }

    /** create_customer_portal_session: a billing-portal session for the
        resolved customer; the answer is its URL. */
    method CreateCustomerPortalSession(user: User) returns (r: Outcome<string>, user': User)
      requires gateway.Valid()
      modifies gateway`customers, gateway`createdCustomers, gateway`portalSessions
      ensures gateway.Valid() && CustomersAfterResolving(user)
      ensures old(ResolutionError(user)).Some? ==>
        r == Raised(old(ResolutionError(user)).value) && user' == user &&
        gateway.portalSessions == old(gateway.portalSessions)
      ensures old(ResolutionError(user)).None? ==>
        user' == WithCustomerId(user, old(ResolvedId(user))) &&
        |gateway.portalSessions| == |old(gateway.portalSessions)| + 1 &&
        var session := gateway.portalSessions[|old(gateway.portalSessions)|];
        gateway.portalSessions == old(gateway.portalSessions) + [session] &&
        session.customer == old(ResolvedId(user)) && r == Returned(session.url)
    {
      var customer;
      customer, user' := HandleStripeCustomer(user);
      if customer.Raised? {
        r := Raised(customer.error);
        return;
      }
      var session := gateway.CreatePortalSession(customer.value);
      r := Returned(session.url);
    }

    /** create_checkout_session: every exception, the resolution's included,
        becomes an error answer; otherwise one new unpaid session is created
        from `CheckoutRequestFor` and its URL is answered. */
    method CreateCheckoutSession(user: User, price: nat, credits: nat) returns (r: CheckoutResult, user': User)
      requires gateway.Valid()
      modifies gateway`customers, gateway`createdCustomers, gateway`checkoutSessions, gateway`checkoutCount
      ensures gateway.Valid() && CustomersAfterResolving(user)
      ensures old(ResolutionError(user)).Some? ==>
        r == CheckoutFailed(Describe(old(ResolutionError(user)).value)) && user' == user &&
        gateway.checkoutSessions == old(gateway.checkoutSessions) &&
        gateway.checkoutCount == old(gateway.checkoutCount)
      ensures old(ResolutionError(user)).None? && gateway.responses.checkoutError.Some? ==>
        r == CheckoutFailed(gateway.responses.checkoutError.value) &&
        user' == WithCustomerId(user, old(ResolvedId(user))) &&
        gateway.checkoutSessions == old(gateway.checkoutSessions) &&
        gateway.checkoutCount == old(gateway.checkoutCount)
      ensures old(ResolutionError(user)).None? && gateway.responses.checkoutError.None? ==>
        var id := old(gateway.NextCheckoutSessionId());
        var request := CheckoutRequestFor(old(ResolvedId(user)), user.id, price, credits);
        id !in old(gateway.checkoutSessions) &&
        gateway.checkoutSessions == old(gateway.checkoutSessions)[id := CheckoutSession(id, request, CheckoutUrl(id), "unpaid")] &&
        gateway.checkoutCount == old(gateway.checkoutCount) + 1 &&
        user' == WithCustomerId(user, old(ResolvedId(user))) && r == CheckoutCreated(CheckoutUrl(id))
    {
      var userId := user.id;
      var customer;
      customer, user' := HandleStripeCustomer(user);
      if customer.Raised? {
        r := CheckoutFailed(Describe(customer.error));
        return;
      }
      var session := gateway.CreateCheckoutSession(CheckoutRequestFor(customer.value, userId, price, credits));
      if session.Raised? {
        r := CheckoutFailed(Describe(session.error));
        return;
      }
      r := CheckoutCreated(session.value.url);
    }

    /** verify_payment: retrieve the session (an unknown id raises) and decide
        on its metadata and payment status. Nothing is written: the user is
        not even read. */
    method VerifyPayment(user: User, sessionId: string) returns (r: Outcome<Verification>)
      ensures sessionId !in gateway.checkoutSessions ==>
        r == Raised(StripeError(NoSuchCheckoutSession(sessionId)))
      ensures sessionId in gateway.checkoutSessions ==>
        var session := gateway.checkoutSessions[sessionId];
        r == PaymentVerdict(session.request.metadata, session.paymentStatus)
    {
      var session := gateway.RetrieveCheckoutSession(sessionId);
      if session.Raised? {
        r := Raised(session.error);
        return;
      }
      r := PaymentVerdict(session.value.request.metadata, session.value.paymentStatus);
    }
  }

  /** The dummy user has a subscription record but no customer id, so its
      first resolution creates a customer and keeps the write-back. */
  lemma DummyUserCreatesCustomer()
    ensures StoredCustomerId(CreateDummyUser()) == None
    ensures CreateDummyUser().subscription.Some?
  {
  }
}
