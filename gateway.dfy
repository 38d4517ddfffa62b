/** The payment gateway behind the Stripe SDK, reduced to the calls the
    service makes. Each method stands for one SDK call. What a call answers
    is decided by the gateway's state and, where the state does not decide
    it (a declined card, a network failure, the attributes of a reply), by
    `responses`, which the caller scripts. Object identifiers are a prefix
    followed by a counter in decimal, so that new objects are provably new. */
module StripeGateway {
  import opened Failures
  import Decimal

  const CustomerPrefix := "cus_"
  const SubscriptionPrefix := "sub_"
  const SubscriptionItemPrefix := "si_"
  const SetupIntentPrefix := "seti_"
  const PortalSessionPrefix := "bps_"
  const CheckoutSessionPrefix := "cs_"

  function ObjectId(prefix: string, n: nat): string
  {
    prefix + Decimal.Digits(n)
  }

  /** `id` is `prefix` followed by the decimal notation of a number below `n`. */
  predicate IssuedBefore(prefix: string, id: string, n: nat)
  {
    |prefix| <= |id| && id[..|prefix|] == prefix &&
    var k := Decimal.Parse(id[|prefix|..]); k.Some? && k.value < n
  }

  /** The `n`th identifier was not issued before it, and is issued from then on. */
  lemma ObjectIdFresh(prefix: string, n: nat)
    ensures !IssuedBefore(prefix, ObjectId(prefix, n), n)
    ensures IssuedBefore(prefix, ObjectId(prefix, n), n + 1)
  {
    var id := ObjectId(prefix, n);
    assert id[..|prefix|] == prefix;
    assert id[|prefix|..] == Decimal.Digits(n);
    Decimal.ParseDigits(n);
  }

  /** Different counters give different identifiers. */
  lemma {:induction false} ObjectIdInjective(prefix: string, m: nat, n: nat)
    requires m != n
    ensures ObjectId(prefix, m) != ObjectId(prefix, n)
  {
    if ObjectId(prefix, m) == ObjectId(prefix, n) {
      assert ObjectId(prefix, m)[|prefix|..] == Decimal.Digits(m);
      assert ObjectId(prefix, n)[|prefix|..] == Decimal.Digits(n);
      Decimal.ParseDigits(m);
      Decimal.ParseDigits(n);
    }
  }

  datatype Card = Card(last4: string, brand: string, expMonth: nat, expYear: nat)

  datatype PaymentMethod = PaymentMethod(id: string, card: Card)

  datatype CustomerRecord = CustomerRecord(
    id: string, email: string, name: string, metadata: map<string, string>)

  datatype SubscriptionObject = SubscriptionObject(
    id: string, customer: string, price: string, itemIds: seq<string>)

  /** What a meter-event request carries: its name and its payload. */
  datatype MeterEventRequest = MeterEventRequest(eventName: string, customer: string, value: int)

  /** The gateway's answer to a meter-event request; None marks an absent attribute. */
  datatype MeterEventObject = MeterEventObject(
    eventName: string, timestamp: Option<int>, status: Option<string>, created: Option<int>)

  datatype SetupIntent = SetupIntent(
    id: string, customer: string, paymentMethodTypes: seq<string>, usage: string,
    clientSecret: string)

  datatype PortalSession = PortalSession(id: string, customer: string, url: string)

  datatype LineItem = LineItem(
    currency: string, productName: string, productDescription: string,
    unitAmount: nat, quantity: nat)

  datatype CheckoutRequest = CheckoutRequest(
    customer: string, paymentMethodTypes: seq<string>, lineItems: seq<LineItem>,
    allowPromotionCodes: bool, mode: string, metadata: map<string, string>)

  datatype CheckoutSession = CheckoutSession(
    id: string, request: CheckoutRequest, url: string, paymentStatus: string)

  /** The answers the caller scripts. */
  datatype Responses = Responses(
    retrieveFails: bool,                 // every Customer.retrieve raises, even for a live customer
    customerCreateError: Option<string>, // Customer.create raises a StripeError with this text
    subscriptionError: Option<string>,   // Subscription.create raises a StripeError with this text
    subscriptionWithoutItems: bool,      // Subscription.create answers with an empty item list
    meterEventError: Option<string>,     // MeterEvent.create raises a StripeError with this text
    meterEventTimestamp: Option<int>,    // attributes of the meter-event answer
    meterEventStatus: Option<string>,
    meterEventCreated: Option<int>,
    checkoutError: Option<string>)       // checkout.Session.create raises a StripeError with this text

  function CheckoutUrl(sessionId: string): string
  {
    "https://checkout.stripe.com/c/pay/" + sessionId
  }

  function PortalUrl(sessionId: string): string
  {
    "https://billing.stripe.com/p/session/" + sessionId
  }

  function NoSuchCheckoutSession(id: string): string
  {
    "No such checkout.session: '" + id + "'"
  }

  class Gateway {
    var customers: set<string>                 // the customers Customer.retrieve knows
    var createdCustomers: seq<CustomerRecord>  // every customer created, in order
    var paymentMethods: map<string, seq<PaymentMethod>>
    var subscriptions: seq<SubscriptionObject>
    var meterEvents: seq<MeterEventRequest>
    var setupIntents: seq<SetupIntent>
    var portalSessions: seq<PortalSession>
    var checkoutSessions: map<string, CheckoutSession>
    var checkoutCount: nat                     // checkout sessions created so far
    var responses: Responses

    /** Every live customer and every checkout session was issued by this gateway. */
    ghost predicate Valid()
      reads this
    {
      (forall c {:trigger IssuedBefore(CustomerPrefix, c, |createdCustomers|)} | c in customers ::
         IssuedBefore(CustomerPrefix, c, |createdCustomers|)) &&
      (forall s {:trigger IssuedBefore(CheckoutSessionPrefix, s, checkoutCount)} | s in checkoutSessions ::
         IssuedBefore(CheckoutSessionPrefix, s, checkoutCount))
    }

    constructor (responses: Responses)
      ensures Valid()
      ensures customers == {} && createdCustomers == [] && paymentMethods == map[]
      ensures subscriptions == [] && meterEvents == [] && setupIntents == [] && portalSessions == []
      ensures checkoutSessions == map[] && checkoutCount == 0
      ensures this.responses == responses
    {
      customers, createdCustomers, paymentMethods := {}, [], map[];
      subscriptions, meterEvents, setupIntents, portalSessions := [], [], [], [];
      checkoutSessions, checkoutCount := map[], 0;
      this.responses := responses;
    }

    predicate Retrievable(id: string)
      reads this
    {
      id in customers && !responses.retrieveFails
    }

    function NextCustomerId(): string
      reads this
    {
      ObjectId(CustomerPrefix, |createdCustomers|)
    }

    function NextCheckoutSessionId(): string
      reads this
    {
      ObjectId(CheckoutSessionPrefix, checkoutCount)
    }

    function CardsOf(customer: string): seq<PaymentMethod>
      reads this
    {
      if customer in paymentMethods then paymentMethods[customer] else []
    }

    /** stripe.Customer.retrieve: `found` is false where the call raises. */
    method RetrieveCustomer(id: string) returns (found: bool)
      ensures found <==> id in customers && !responses.retrieveFails
    {
      found := id in customers && !responses.retrieveFails;
    }

    /** stripe.Customer.create */
    method CreateCustomer(email: string, name: string, metadata: map<string, string>)
      returns (r: Outcome<string>)
      requires Valid()
      modifies this`customers, this`createdCustomers
      ensures Valid()
      ensures responses.customerCreateError.Some? ==>
        r == Raised(StripeError(responses.customerCreateError.value)) &&
        customers == old(customers) && createdCustomers == old(createdCustomers)
      ensures responses.customerCreateError.None? ==>
        r == Returned(old(NextCustomerId())) && r.value !in old(customers) &&
        customers == old(customers) + {r.value} &&
        createdCustomers == old(createdCustomers) + [CustomerRecord(r.value, email, name, metadata)]
    {
      if responses.customerCreateError.Some? {
        r := Raised(StripeError(responses.customerCreateError.value));
        return;
      }
      var id := NextCustomerId();
      ObjectIdFresh(CustomerPrefix, |createdCustomers|);
      forall c | c in customers
        ensures IssuedBefore(CustomerPrefix, c, |createdCustomers| + 1)
      {
        assert IssuedBefore(CustomerPrefix, c, |createdCustomers|);
      }
      customers := customers + {id};
      createdCustomers := createdCustomers + [CustomerRecord(id, email, name, metadata)];
      r := Returned(id);
    }

    /** The gateway stops accepting a customer id: from now on
        `Customer.retrieve` raises for it, so an id stored for it goes stale. */
    method ForgetCustomer(id: string)
      requires Valid()
      modifies this`customers
      ensures Valid()
      ensures customers == old(customers) - {id}
    {
      customers := customers - {id};
    }

    /** A card saved for an existing customer outside the service, once the
        customer confirms a setup intent. */
    method AttachPaymentMethod(customer: string, paymentMethod: PaymentMethod)
      requires customer in customers
      modifies this`paymentMethods
      ensures paymentMethods == old(paymentMethods)[customer := old(CardsOf(customer)) + [paymentMethod]]
    {
      paymentMethods := paymentMethods[customer := CardsOf(customer) + [paymentMethod]];
    }

    /** stripe.PaymentMethod.list(customer=..., type="card") */
    method ListPaymentMethods(customer: string) returns (methods: seq<PaymentMethod>)
      ensures methods == CardsOf(customer)
    {
      methods := CardsOf(customer);
    }

    /** stripe.Subscription.create with one item for `price` */
    method CreateSubscription(customer: string, price: string) returns (r: Outcome<SubscriptionObject>)
      modifies this`subscriptions
      ensures responses.subscriptionError.Some? ==>
        r == Raised(StripeError(responses.subscriptionError.value)) &&
        subscriptions == old(subscriptions)
      ensures responses.subscriptionError.None? ==>
        r.Returned? && subscriptions == old(subscriptions) + [r.value] &&
        r.value.id == ObjectId(SubscriptionPrefix, |old(subscriptions)|) &&
        r.value.customer == customer && r.value.price == price &&
        r.value.itemIds ==
          if responses.subscriptionWithoutItems then [] else [ObjectId(SubscriptionItemPrefix, |old(subscriptions)|)]
    {
      if responses.subscriptionError.Some? {
        r := Raised(StripeError(responses.subscriptionError.value));
        return;
      }
      var n := |subscriptions|;
      var items := if responses.subscriptionWithoutItems then [] else [ObjectId(SubscriptionItemPrefix, n)];
      var subscription := SubscriptionObject(ObjectId(SubscriptionPrefix, n), customer, price, items);
      subscriptions := subscriptions + [subscription];
      r := Returned(subscription);
    }

    /** stripe.billing.MeterEvent.create */
    method CreateMeterEvent(eventName: string, customer: string, value: int)
      returns (r: Outcome<MeterEventObject>)
      modifies this`meterEvents
      ensures responses.meterEventError.Some? ==>
        r == Raised(StripeError(responses.meterEventError.value)) && meterEvents == old(meterEvents)
      ensures responses.meterEventError.None? ==>
        meterEvents == old(meterEvents) + [MeterEventRequest(eventName, customer, value)] &&
        r == Returned(MeterEventObject(eventName, responses.meterEventTimestamp,
                                       responses.meterEventStatus, responses.meterEventCreated))
    {
      if responses.meterEventError.Some? {
        r := Raised(StripeError(responses.meterEventError.value));
        return;
      }
      meterEvents := meterEvents + [MeterEventRequest(eventName, customer, value)];
      r := Returned(MeterEventObject(eventName, responses.meterEventTimestamp,
                                     responses.meterEventStatus, responses.meterEventCreated));
    }

    /** stripe.SetupIntent.create */
    method CreateSetupIntent(customer: string, paymentMethodTypes: seq<string>, usage: string)
      returns (intent: SetupIntent)
      modifies this`setupIntents
      ensures setupIntents == old(setupIntents) + [intent]
      ensures intent.id == ObjectId(SetupIntentPrefix, |old(setupIntents)|)
      ensures intent.customer == customer && intent.paymentMethodTypes == paymentMethodTypes
      ensures intent.usage == usage && intent.clientSecret == intent.id + "_secret"
    {
      var id := ObjectId(SetupIntentPrefix, |setupIntents|);
      intent := SetupIntent(id, customer, paymentMethodTypes, usage, id + "_secret");
      setupIntents := setupIntents + [intent];
    }

    /** stripe.billing_portal.Session.create */
    method CreatePortalSession(customer: string) returns (session: PortalSession)
      modifies this`portalSessions
      ensures portalSessions == old(portalSessions) + [session]
      ensures session.id == ObjectId(PortalSessionPrefix, |old(portalSessions)|)
      ensures session.customer == customer && session.url == PortalUrl(session.id)
    {
      var id := ObjectId(PortalSessionPrefix, |portalSessions|);
      session := PortalSession(id, customer, PortalUrl(id));
      portalSessions := portalSessions + [session];
    }

    /** stripe.checkout.Session.create: a new session starts unpaid. */
    method CreateCheckoutSession(request: CheckoutRequest) returns (r: Outcome<CheckoutSession>)
      requires Valid()
      modifies this`checkoutSessions, this`checkoutCount
      ensures Valid()
      ensures responses.checkoutError.Some? ==>
        r == Raised(StripeError(responses.checkoutError.value)) &&
        checkoutSessions == old(checkoutSessions) && checkoutCount == old(checkoutCount)
      ensures responses.checkoutError.None? ==>
        var id := old(NextCheckoutSessionId());
        id !in old(checkoutSessions) &&
        r == Returned(CheckoutSession(id, request, CheckoutUrl(id), "unpaid")) &&
        checkoutSessions == old(checkoutSessions)[id := r.value] &&
        checkoutCount == old(checkoutCount) + 1
    {
      if responses.checkoutError.Some? {
        r := Raised(StripeError(responses.checkoutError.value));
        return;
      }
      var id := NextCheckoutSessionId();
      ObjectIdFresh(CheckoutSessionPrefix, checkoutCount);
      forall s | s in checkoutSessions
        ensures IssuedBefore(CheckoutSessionPrefix, s, checkoutCount + 1)
      {
        assert IssuedBefore(CheckoutSessionPrefix, s, checkoutCount);
      }
      var session := CheckoutSession(id, request, CheckoutUrl(id), "unpaid");
      checkoutSessions := checkoutSessions[id := session];
      checkoutCount := checkoutCount + 1;
      r := Returned(session);
    }

    /** The customer pays on the hosted checkout page. */
    method CompleteCheckout(id: string)
      requires Valid()
      modifies this`checkoutSessions
      ensures Valid()
      ensures checkoutSessions ==
        if id in old(checkoutSessions)
        then old(checkoutSessions)[id := old(checkoutSessions)[id].(paymentStatus := "paid")]
        else old(checkoutSessions)
    {
      if id in checkoutSessions {
        checkoutSessions := checkoutSessions[id := checkoutSessions[id].(paymentStatus := "paid")];
      }
    }

    /** stripe.checkout.Session.retrieve: an unknown id raises. */
    method RetrieveCheckoutSession(id: string) returns (r: Outcome<CheckoutSession>)
      ensures id in checkoutSessions ==> r == Returned(checkoutSessions[id])
      ensures id !in checkoutSessions ==> r == Raised(StripeError(NoSuchCheckoutSession(id)))
    {
      if id in checkoutSessions {
        r := Returned(checkoutSessions[id]);
      } else {
        r := Raised(StripeError(NoSuchCheckoutSession(id)));
      }
    }
  }
}
