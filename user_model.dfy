/** The account records the service reads and updates: a user and the
    optional record of the user's Stripe identifiers. Default parameter
    values play the part of the dataclass field defaults. */
module UserModel {
  import opened Failures

  /** The three Stripe identifiers kept for a user; each is absent until the
      service writes it. */
  datatype Subscription = Subscription(
    stripeCustomerId: Option<string> := None,
    stripeSubscriptionId: Option<string> := None,
    stripeSubscriptionItemId: Option<string> := None)

  datatype User = User(
    id: string,
    name: string,
    email: string,
    subscription: Option<Subscription> := None)

  /** A subscription record built with no arguments holds no identifier. */
  lemma DefaultSubscriptionIsEmpty()
    ensures Subscription().stripeCustomerId == None
    ensures Subscription().stripeSubscriptionId == None
    ensures Subscription().stripeSubscriptionItemId == None
  {
  }

  /** A user built without a subscription record has none. */
  lemma UserWithoutSubscription(id: string, name: string, email: string)
    ensures User(id, name, email).subscription == None
    ensures User(id, name, email).id == id
  {
  }

  /** The fixed test user the application serves every request with. */
  function CreateDummyUser(): (u: User)
    ensures u.id == "user_123" && u.name == "Test User" && u.email == "test@example.com"
    ensures u.subscription.Some?
    ensures u.subscription.value.stripeCustomerId == None
    ensures u.subscription.value.stripeSubscriptionId == None
    ensures u.subscription.value.stripeSubscriptionItemId == None
  {
    User(id := "user_123", name := "Test User", email := "test@example.com",
         subscription := Some(Subscription()))
  }
}
