/** SubscriptionService: creating and cancelling a user's subscription,
    listing them, and the lazy link between an account and its customer at
    the billing provider. The provider is an oracle: each of its calls
    returns a value, or None where the call throws. Together, creation and
    cancellation keep at most one ACTIVE subscription per user. */
module Subscriptions {
  import opened Common
  import opened Queries
  import opened Accounts

  datatype SubscriptionPlan = FREE | BASIC | PREMIUM | ENTERPRISE

  datatype SubscriptionStatus = PENDING | ACTIVE | CANCELED | PAST_DUE | UNPAID | TRIAL

  type SubscriptionId = nat

  /** The persisted subscription; period bounds are seconds since the epoch,
      `amount` is in major currency units. */
  datatype Subscription = Subscription(
    userId: UserId,
    plan: SubscriptionPlan,
    status: SubscriptionStatus,
    amount: real,
    currency: string,
    currentPeriodStart: Time,
    currentPeriodEnd: Time,
    stripeSubscriptionId: Option<string>,
    stripeCustomerId: Option<string>,
    canceledAt: Option<Time>,
    cancelReason: Option<string>)

  /** What the service returns for a subscription: every field but the
      customer id, plus the subscription's identifier. */
  datatype SubscriptionResponse = SubscriptionResponse(
    id: SubscriptionId,
    userId: UserId,
    plan: SubscriptionPlan,
    status: SubscriptionStatus,
    amount: real,
    currency: string,
    currentPeriodStart: Time,
    currentPeriodEnd: Time,
    stripeSubscriptionId: Option<string>,
    canceledAt: Option<Time>,
    cancelReason: Option<string>)

  datatype SubscriptionRequest = SubscriptionRequest(plan: SubscriptionPlan, paymentMethodId: Option<string>)

  /** The billing provider's subscription: its id and current period. */
  datatype ProviderSubscription = ProviderSubscription(id: string, currentPeriodStart: Time, currentPeriodEnd: Time)

  /** The provider's price: amount in minor units and currency code. */
  datatype ProviderPrice = ProviderPrice(unitAmount: int, currency: string)

  datatype SetupIntentResponse = SetupIntentResponse(clientSecret: string, customerId: string)

  datatype CheckoutSessionResponse = CheckoutSessionResponse(sessionId: string, sessionUrl: string)

  /** The billing provider's calls, None meaning the call threw. */
  datatype BillingProvider = BillingProvider(
    // create a customer from (email, name)
    createCustomer: (string, string) -> Option<string>,
    // attach (payment method, customer) and make it the customer's default
    attachPaymentMethod: (string, string) -> bool,
    // create a subscription for (customer, price id, payment method)
    createSubscription: (string, string, Option<string>) -> Option<ProviderSubscription>,
    retrievePrice: string -> Option<ProviderPrice>,
    // retrieve and cancel the provider subscription with that id
    cancelSubscription: Option<string> -> bool,
    // create a setup intent for a customer, giving its client secret
    createSetupIntent: string -> Option<string>,
    // open a checkout session for (customer, price id)
    createCheckoutSession: (string, string) -> Option<CheckoutSessionResponse>)

  const PLAN_PRICE_IDS: map<SubscriptionPlan, string> := map[
    BASIC := "price_1QsqFcPTJe3xQo0CAz3WS0Eo",
    PREMIUM := "price_premium_monthly",
    ENTERPRISE := "price_enterprise_monthly"]

  /** The price table has an entry for every plan but FREE. */
  lemma PaidPlansArePriced(plan: SubscriptionPlan)
    ensures plan in PLAN_PRICE_IDS <==> plan != FREE
  {
    match plan
    case FREE =>
    case BASIC =>
    case PREMIUM =>
    case ENTERPRISE =>
  }

  /** `PLAN_PRICE_IDS.get(plan)`: no price for FREE, one for every paid plan. */
  function PriceId(plan: SubscriptionPlan): (id: Option<string>)
    ensures id.None? <==> plan == FREE
  {
    PaidPlansArePriced(plan);
    if plan in PLAN_PRICE_IDS then Some(PLAN_PRICE_IDS[plan]) else None
  }

  /** `mapToResponse` */
  function ToResponse(id: SubscriptionId, s: Subscription): SubscriptionResponse
  {
    SubscriptionResponse(id, s.userId, s.plan, s.status, s.amount, s.currency,
                         s.currentPeriodStart, s.currentPeriodEnd, s.stripeSubscriptionId,
                         s.canceledAt, s.cancelReason)
  }

  /** The subscription a response describes, given the customer id it omits. */
  function FromResponse(r: SubscriptionResponse, customerId: Option<string>): Subscription
  {
    Subscription(r.userId, r.plan, r.status, r.amount, r.currency, r.currentPeriodStart,
                 r.currentPeriodEnd, r.stripeSubscriptionId, customerId, r.canceledAt, r.cancelReason)
  }

  /** `mapToResponse` copies every field: the response keeps the identifier
      and gives back the whole subscription once the customer id is restored. */
  lemma ResponseRoundTrip(id: SubscriptionId, s: Subscription)
    ensures ToResponse(id, s).id == id
    ensures FromResponse(ToResponse(id, s), s.stripeCustomerId) == s
  {
  }

  /** `existsByUserAndStatus` */
  function ExistsByUserAndStatus(rows: seq<Subscription>, user: UserId, status: SubscriptionStatus): (b: bool)
    ensures b <==> exists i :: 0 <= i < |rows| && rows[i].userId == user && rows[i].status == status
  {
    FirstWhere(rows, (s: Subscription) => s.userId == user && s.status == status).Some?
  }

  /** No user has two ACTIVE subscriptions. */
  ghost predicate AtMostOneActive(rows: seq<Subscription>)
  {
    forall i, j :: 0 <= i < j < |rows| && rows[i].status == ACTIVE && rows[j].status == ACTIVE ==>
      rows[i].userId != rows[j].userId
  }

  /** Appending a subscription for a user with no ACTIVE one keeps at most one
      ACTIVE subscription per user. */
  lemma InsertKeepsAtMostOneActive(rows: seq<Subscription>, s: Subscription)
    requires AtMostOneActive(rows) && !ExistsByUserAndStatus(rows, s.userId, ACTIVE)
    ensures AtMostOneActive(rows + [s])
  {
    var rows' := rows + [s];
    forall i, j | 0 <= i < j < |rows'| && rows'[i].status == ACTIVE && rows'[j].status == ACTIVE
      ensures rows'[i].userId != rows'[j].userId
    {
      if j == |rows| {
        assert rows[i].status == ACTIVE;
      }
    }
  }

  /** The record a successful cancel saves: CANCELED at `now`, the reason and
      every other field kept. */
  function Canceled(s: Subscription, now: Time): Subscription
  {
    s.(status := CANCELED, canceledAt := Some(now))
  }

  /** Cancelling any subscription keeps at most one ACTIVE one per user. */
  lemma CancelKeepsAtMostOneActive(rows: seq<Subscription>, id: SubscriptionId, now: Time)
    requires AtMostOneActive(rows) && id < |rows|
    ensures AtMostOneActive(rows[id := Canceled(rows[id], now)])
  {
    var rows' := rows[id := Canceled(rows[id], now)];
    forall i, j | 0 <= i < j < |rows'| && rows'[i].status == ACTIVE && rows'[j].status == ACTIVE
      ensures rows'[i].userId != rows'[j].userId
    {
      assert rows'[i] == rows[i] && rows'[j] == rows[j];
    }
  }

  /** The checks `cancelSubscription` makes, in order: the subscription
      exists, belongs to the caller, and is ACTIVE. */
  function CancelRefusal(rows: seq<Subscription>, caller: UserId, id: SubscriptionId): (e: Option<Error>)
    ensures e.None? <==> id < |rows| && rows[id].userId == caller && rows[id].status == ACTIVE
    ensures id >= |rows| ==> e == Some(SubscriptionNotFound)
    ensures id < |rows| && rows[id].userId != caller ==> e == Some(NotAuthorizedToCancel)
    ensures id < |rows| && rows[id].userId == caller && rows[id].status != ACTIVE ==> e == Some(SubscriptionNotActive)
  {
    if id >= |rows| then Some(SubscriptionNotFound)
    else if rows[id].userId != caller then Some(NotAuthorizedToCancel)
    else if rows[id].status != ACTIVE then Some(SubscriptionNotActive)
    else None
  }

  /** A cancelled subscription cannot be cancelled again: the second attempt
      fails as not active. */
  lemma CancelTwiceRefused(rows: seq<Subscription>, caller: UserId, id: SubscriptionId, now: Time)
    requires CancelRefusal(rows, caller, id).None?
    ensures CancelRefusal(rows[id := Canceled(rows[id], now)], caller, id) == Some(SubscriptionNotActive)
  {
  }

  /** The customer id the linking block ends with: the stored one if any,
      otherwise the one the provider creates (None if that call throws). */
  function ResolvedCustomer(u: User, provider: BillingProvider): Option<string>
  {
    if u.stripeCustomerId.Some? then u.stripeCustomerId
    else provider.createCustomer(u.email, FullName(u))
  }

  /** The account after the linking block. */
  function Linked(u: User, provider: BillingProvider): (v: User)
    ensures u.stripeCustomerId.Some? ==> v == u
    ensures ResolvedCustomer(u, provider).None? ==> v == u
    ensures ResolvedCustomer(u, provider).Some? ==> v == u.(stripeCustomerId := ResolvedCustomer(u, provider))
  {
    if u.stripeCustomerId.None? && provider.createCustomer(u.email, FullName(u)).Some? then
      u.(stripeCustomerId := provider.createCustomer(u.email, FullName(u)))
    else u
  }

  /** The provider calls `createSubscription` makes once the customer is
      known: attach the payment method if one is given, create the provider
      subscription at the plan's price, then retrieve that price. A plan
      without a price (FREE) sends an item with no price, which the provider
      refuses. */
  function ProviderCalls(customerId: string, request: SubscriptionRequest, provider: BillingProvider): Option<(ProviderSubscription, ProviderPrice)>
  {
    if request.paymentMethodId.Some? && !provider.attachPaymentMethod(request.paymentMethodId.value, customerId) then None
    else if PriceId(request.plan).None? then None
    else
      var priceId := PriceId(request.plan).value;
      match provider.createSubscription(customerId, priceId, request.paymentMethodId)
      case None => None
      case Some(created) =>
        match provider.retrievePrice(priceId)
        case None => None
        case Some(price) => Some((created, price))
  }

  /** The record a successful `createSubscription` saves. */
  function NewSubscription(caller: UserId, plan: SubscriptionPlan, customerId: string,
                           created: ProviderSubscription, price: ProviderPrice): (s: Subscription)
    ensures s.userId == caller && s.plan == plan && s.status == ACTIVE
    ensures s.stripeSubscriptionId == Some(created.id) && s.stripeCustomerId == Some(customerId)
    ensures s.currency == UpperCase(price.currency) && forall i :: 0 <= i < |s.currency| ==> !IsLower(s.currency[i])
    ensures s.canceledAt.None? && s.cancelReason.None?
  {
    Subscription(caller, plan, ACTIVE, price.unitAmount as real / 100.0, UpperCase(price.currency),
                 created.currentPeriodStart, created.currentPeriodEnd, Some(created.id),
                 Some(customerId), None, None)
  }

  /** A user with an ACTIVE subscription is refused a second one. */
  lemma SecondCreateRefused(rows: seq<Subscription>, s: Subscription)
    requires s.status == ACTIVE
    ensures ExistsByUserAndStatus(rows + [s], s.userId, ACTIVE)
  {
    assert (rows + [s])[|rows|] == s;
  }

  /** Mapping every selected identifier to its response lists every
      subscription of the owner. */
  lemma ResponsesCoverOwner(rows: seq<Subscription>, owner: UserId, ids: seq<nat>, r: seq<SubscriptionResponse>)
    requires forall i :: 0 <= i < |rows| && rows[i].userId == owner ==> i in ids
    requires forall k :: 0 <= k < |ids| ==> ids[k] < |rows|
    requires |r| == |ids|
    requires forall k :: 0 <= k < |ids| ==> r[k] == ToResponse(ids[k], rows[ids[k]])
    ensures forall i :: 0 <= i < |rows| && rows[i].userId == owner ==> ToResponse(i, rows[i]) in r
  {
    forall i | 0 <= i < |rows| && rows[i].userId == owner ensures ToResponse(i, rows[i]) in r {
      var k :| 0 <= k < |ids| && ids[k] == i;
      assert r[k] == ToResponse(i, rows[i]);
    }
  }

  /** The subscription repository: `save` of a new entity appends it, `save`
      of a loaded one writes it back in place. */
  class SubscriptionRepository {
    var rows: seq<Subscription>

    constructor ()
      ensures rows == []
    {
      rows := [];
    }

    method Insert(s: Subscription) returns (id: SubscriptionId)
      modifies this
      ensures id == |old(rows)| && rows == old(rows) + [s]
    {
      id := |rows|;
      rows := rows + [s];
    }

    method Update(id: SubscriptionId, s: Subscription)
      requires id < |rows|
      modifies this
      ensures rows == old(rows)[id := s]
    {
      rows := rows[id := s];
    }
  }

  class SubscriptionService {
    const subscriptionRepository: SubscriptionRepository
    const userRepository: UserRepository

    ghost predicate Valid()
      reads subscriptionRepository, userRepository
    {
      userRepository.Valid() && AtMostOneActive(subscriptionRepository.rows)
    }

    constructor (subscriptionRepository: SubscriptionRepository, userRepository: UserRepository)
      requires userRepository.Valid() && AtMostOneActive(subscriptionRepository.rows)
      ensures this.subscriptionRepository == subscriptionRepository && this.userRepository == userRepository
      ensures Valid()
    {
      this.subscriptionRepository := subscriptionRepository;
      this.userRepository := userRepository;
    }

    /** The customer-linking block of `createSubscription`,
        `createSetupIntent` and `createCheckoutSession`: a stored customer id
        is reused and never overwritten; a missing one is created at the
        provider and saved on the account; a failed creation changes nothing. */
    method LinkCustomer(caller: UserId, provider: BillingProvider) returns (r: Result<string>)
      requires userRepository.Valid() && caller < |userRepository.users|
      modifies userRepository
      ensures userRepository.Valid()
      ensures var u := old(userRepository.users)[caller];
        && userRepository.users == old(userRepository.users)[caller := Linked(u, provider)]
        && r == match ResolvedCustomer(u, provider)
                case Some(c) => Ok(c)
                case None => Err(ProviderError)
    {
      var user := userRepository.users[caller];
      var stripeCustomerId := user.stripeCustomerId;
      if stripeCustomerId.None? {
        var customer := provider.createCustomer(user.email, FullName(user));
        if customer.None? {
          return Err(ProviderError);
        }
        stripeCustomerId := customer;
        user := user.(stripeCustomerId := stripeCustomerId);
        UpdateKeepsEmailsUnique(userRepository.users, caller, user);
        userRepository.Update(caller, user);
      }
      r := Ok(stripeCustomerId.value);
    }

    /** `createSubscription`: refused, before any write, when the caller
        already has an ACTIVE subscription; otherwise links the customer
        (which stays linked if a later provider call throws) and, when every
        provider call succeeds, appends exactly one ACTIVE record for the
        caller, so that the caller's next attempt is refused. */
    method CreateSubscription(caller: UserId, request: SubscriptionRequest, provider: BillingProvider)
      returns (r: Result<SubscriptionResponse>)
      requires Valid() && caller < |userRepository.users|
      modifies userRepository, subscriptionRepository
      ensures Valid()
      ensures ExistsByUserAndStatus(old(subscriptionRepository.rows), caller, ACTIVE) ==>
        && r == Err(AlreadySubscribed)
        && userRepository.users == old(userRepository.users)
        && subscriptionRepository.rows == old(subscriptionRepository.rows)
      ensures !ExistsByUserAndStatus(old(subscriptionRepository.rows), caller, ACTIVE) ==>
        var u := old(userRepository.users)[caller];
        && userRepository.users == old(userRepository.users)[caller := Linked(u, provider)]
        && match ResolvedCustomer(u, provider)
           case None => r == Err(ProviderError) && subscriptionRepository.rows == old(subscriptionRepository.rows)
           case Some(c) =>
             match ProviderCalls(c, request, provider)
             case None => r == Err(ProviderError) && subscriptionRepository.rows == old(subscriptionRepository.rows)
             case Some(calls) =>
               var s := NewSubscription(caller, request.plan, c, calls.0, calls.1);
               && subscriptionRepository.rows == old(subscriptionRepository.rows) + [s]
               && r == Ok(ToResponse(|old(subscriptionRepository.rows)|, s))
      ensures r.Ok? ==> ExistsByUserAndStatus(subscriptionRepository.rows, caller, ACTIVE)
    {
      if ExistsByUserAndStatus(subscriptionRepository.rows, caller, ACTIVE) {
        return Err(AlreadySubscribed);
      }
      var linked := LinkCustomer(caller, provider);
      if linked.Err? {
        return Err(ProviderError);
      }
      var stripeCustomerId := linked.value;
      if request.paymentMethodId.Some? {
        var attached := provider.attachPaymentMethod(request.paymentMethodId.value, stripeCustomerId);
        if !attached {
          return Err(ProviderError);
        }
      }
      var priceId := PriceId(request.plan);
      if priceId.None? {
        return Err(ProviderError);
      }
      var created := provider.createSubscription(stripeCustomerId, priceId.value, request.paymentMethodId);
      if created.None? {
        return Err(ProviderError);
      }
      var price := provider.retrievePrice(priceId.value);
      if price.None? {
        return Err(ProviderError);
      }
      var subscription := Subscription(caller, request.plan, ACTIVE,
                                       price.value.unitAmount as real / 100.0,
                                       UpperCase(price.value.currency),
                                       created.value.currentPeriodStart, created.value.currentPeriodEnd,
                                       Some(created.value.id), Some(stripeCustomerId), None, None);
      InsertKeepsAtMostOneActive(subscriptionRepository.rows, subscription);
      SecondCreateRefused(subscriptionRepository.rows, subscription);
      var id := subscriptionRepository.Insert(subscription);
      r := Ok(ToResponse(id, subscription));
    }

    /** `cancelSubscription`: the ordered checks of CancelRefusal, then the
        provider cancellation; any failure leaves the store unchanged, and
        success marks the record CANCELED at `now`. */
    method CancelSubscription(caller: UserId, id: SubscriptionId, provider: BillingProvider, now: Time)
      returns (r: Result<SubscriptionResponse>)
      requires Valid()
      modifies subscriptionRepository
      ensures Valid()
      ensures CancelRefusal(old(subscriptionRepository.rows), caller, id).Some? ==>
        && r == Err(CancelRefusal(old(subscriptionRepository.rows), caller, id).value)
        && subscriptionRepository.rows == old(subscriptionRepository.rows)
      ensures CancelRefusal(old(subscriptionRepository.rows), caller, id).None? ==>
        var s := old(subscriptionRepository.rows)[id];
        if provider.cancelSubscription(s.stripeSubscriptionId) then
          && r == Ok(ToResponse(id, Canceled(s, now)))
          && subscriptionRepository.rows == old(subscriptionRepository.rows)[id := Canceled(s, now)]
        else
          r == Err(ProviderError) && subscriptionRepository.rows == old(subscriptionRepository.rows)
    {
      if id >= |subscriptionRepository.rows| {
        return Err(SubscriptionNotFound);
      }
      var subscription := subscriptionRepository.rows[id];
      if subscription.userId != caller {
        return Err(NotAuthorizedToCancel);
      }
      if subscription.status != ACTIVE {
        return Err(SubscriptionNotActive);
      }
      var cancelled := provider.cancelSubscription(subscription.stripeSubscriptionId);
      if !cancelled {
        return Err(ProviderError);
      }
      subscription := subscription.(status := CANCELED);
      subscription := subscription.(canceledAt := Some(now));
      CancelKeepsAtMostOneActive(subscriptionRepository.rows, id, now);
      subscriptionRepository.Update(id, subscription);
      r := Ok(ToResponse(id, subscription));
    }

    /** `getUserSubscriptions`: exactly the caller's subscriptions, in
        identifier order, each mapped by `mapToResponse`. */
    function GetUserSubscriptions(caller: UserId): (r: seq<SubscriptionResponse>)
      reads subscriptionRepository
      ensures forall k :: 0 <= k < |r| ==>
        && r[k].id < |subscriptionRepository.rows|
        && r[k].userId == caller
        && r[k] == ToResponse(r[k].id, subscriptionRepository.rows[r[k].id])
      ensures forall i :: 0 <= i < |subscriptionRepository.rows| && subscriptionRepository.rows[i].userId == caller ==>
        ToResponse(i, subscriptionRepository.rows[i]) in r
      ensures forall k, l :: 0 <= k < l < |r| ==> r[k].id < r[l].id
    {
      var rows := subscriptionRepository.rows;
      var ids := Where(rows, (s: Subscription) => s.userId == caller);
      var r := seq(|ids|, k requires 0 <= k < |ids| => ToResponse(ids[k], rows[ids[k]]));
      ResponsesCoverOwner(rows, caller, ids, r);
      r
    }

    /** `createSetupIntent`: links the customer, then asks the provider for a
        setup intent; subscriptions are untouched. */
    method CreateSetupIntent(caller: UserId, provider: BillingProvider) returns (r: Result<SetupIntentResponse>)
      requires Valid() && caller < |userRepository.users|
      modifies userRepository
      ensures Valid()
      ensures var u := old(userRepository.users)[caller];
        && userRepository.users == old(userRepository.users)[caller := Linked(u, provider)]
        && r == match ResolvedCustomer(u, provider)
                case None => Err(ProviderError)
                case Some(c) =>
                  match provider.createSetupIntent(c)
                  case None => Err(ProviderError)
                  case Some(secret) => Ok(SetupIntentResponse(secret, c))
    {
      var linked := LinkCustomer(caller, provider);
      if linked.Err? {
        return Err(ProviderError);
      }
      var stripeCustomerId := linked.value;
      var clientSecret := provider.createSetupIntent(stripeCustomerId);
      if clientSecret.None? {
        return Err(ProviderError);
      }
      r := Ok(SetupIntentResponse(clientSecret.value, stripeCustomerId));
    }

    /** `createCheckoutSession`: no ACTIVE check and no subscription written;
        its only local effect is the customer link. A plan without a price
        (FREE) makes building the line item throw an unchecked exception
        after the link is saved, so the transaction rolls the link back. */
    method CreateCheckoutSession(caller: UserId, request: SubscriptionRequest, provider: BillingProvider)
      returns (r: Result<CheckoutSessionResponse>)
      requires Valid() && caller < |userRepository.users|
      modifies userRepository
      ensures Valid()
      ensures var u := old(userRepository.users)[caller];
        match ResolvedCustomer(u, provider)
        case None => r == Err(ProviderError) && userRepository.users == old(userRepository.users)
        case Some(c) =>
          if request.plan == FREE then
            r == Err(MissingPrice) && userRepository.users == old(userRepository.users)
          else
            && userRepository.users == old(userRepository.users)[caller := Linked(u, provider)]
            && r == match provider.createCheckoutSession(c, PriceId(request.plan).value)
                    case None => Err(ProviderError)
                    case Some(session) => Ok(session)
    {
      var before := userRepository.users[caller];
      var linked := LinkCustomer(caller, provider);
      if linked.Err? {
        return Err(ProviderError);
      }
      var priceId := PriceId(request.plan);
      if priceId.None? {
        // the rollback restores the account as it was before the link
        UpdateKeepsEmailsUnique(userRepository.users, caller, before);
        userRepository.Update(caller, before);
        return Err(MissingPrice);
      }
      var session := provider.createCheckoutSession(linked.value, priceId.value);
      if session.None? {
        return Err(ProviderError);
      }
      r := Ok(session.value);
    }
  }
}
