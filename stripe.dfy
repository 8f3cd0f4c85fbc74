/**
 * The billing handlers (convex/stripe.ts): the customer and subscription
 * mutations and queries, the onboarding actions, the checkout decision and
 * the catalogue sync. Every Stripe SDK call is replaced by its result, passed
 * in as a parameter (`None` where the SDK yields nothing). An action is a
 * sequence of separate mutations: its value-level description composes the
 * mutations' outcomes, so a later step failing does not undo an earlier one.
 */
module Stripe {
  import opened Wrappers
  import opened Schema
  import opened Store
  import opened Catalog
  import App

  // -----------------------------------------------------------------------
  // Customers

  /** `PREAUTH_updateCustomerId`: patch `customerId` onto the user; the patch throws on a missing user. */
  function UpdateCustomerIdOutcome(t: Tables, userId: UserId, customerId: string): (o: Outcome<()>)
    ensures o.result.Err? <==> userId !in t.users
    ensures o.result.Err? ==> o == Outcome(t, Err(MissingDocument))
    ensures o.result.Ok? ==>
      && o.after == t.(users := o.after.users)
      && o.after.users.Keys == t.users.Keys
      && o.after.users[userId] == t.users[userId].(customerId := Some(customerId))
      && (forall u :: u in t.users && u != userId ==> o.after.users[u] == t.users[u])
  {
    if userId !in t.users then Outcome(t, Err(MissingDocument))
    else Outcome(t.(users := t.users[userId := t.users[userId].(customerId := Some(customerId))]), Ok(()))
  }

  method UpdateCustomerId(db: Db, userId: UserId, customerId: string) returns (r: Result<()>)
    requires db.Valid()
    modifies db
    ensures db.Valid()
    ensures Outcome(db.State(), r) == UpdateCustomerIdOutcome(old(db.State()), userId, customerId)
  {
    if userId !in db.users {
      return Err(MissingDocument);
    }
    db.users := db.users[userId := db.users[userId].(customerId := Some(customerId))];
    r := Ok(());
  }

  /** `PREAUTH_getUserById`: the user document, or nothing. */
  function GetUserById(t: Tables, userId: UserId): (r: Option<User>)
    ensures r.Some? <==> userId in t.users
    ensures r.Some? ==> r.value == t.users[userId]
  {
    if userId in t.users then Some(t.users[userId]) else None
  }

  /**
   * Reading a user back after `PREAUTH_updateCustomerId` gives the patched
   * document for that user and the old document, or nothing, for every other id.
   */
  lemma CustomerIdReadBack(t: Tables, userId: UserId, customerId: string, other: UserId)
    requires userId in t.users
    ensures var after := UpdateCustomerIdOutcome(t, userId, customerId).after;
      && GetUserById(after, userId) == Some(t.users[userId].(customerId := Some(customerId)))
      && (other != userId ==> GetUserById(after, other) == GetUserById(t, other))
  {
  }

  /** A user joined with its subscription, as `PREAUTH_getUserByCustomerId` returns it. */
  datatype CustomerView = CustomerView(id: UserId, user: User, subscription: App.SubscriptionView)

  /**
   * `PREAUTH_getUserByCustomerId`: the one user with that customer id, its
   * one subscription and that subscription's plan key; "something went wrong"
   * when any of the three is missing.
   */
  function GetUserByCustomerId(t: Tables, customerId: string): (r: Result<CustomerView>)
    ensures UsersWithCustomerId(t.users, customerId) == {} ==> r == Err(StripeSomethingWentWrong)
    ensures r.Err? ==> r.error == StripeSomethingWentWrong || r.error == NotUnique
    ensures |UsersWithCustomerId(t.users, customerId)| > 1 ==> r == Err(NotUnique)
    ensures |UsersWithCustomerId(t.users, customerId)| == 1 ==>
      var subs := SubscriptionsOfUser(t.subscriptions, Least(UsersWithCustomerId(t.users, customerId)));
      && (subs == {} ==> r == Err(StripeSomethingWentWrong))
      && (|subs| > 1 ==> r == Err(NotUnique))
      && (|subs| == 1 && t.subscriptions[Least(subs)].planId !in t.plans ==> r == Err(StripeSomethingWentWrong))
      && (|subs| == 1 && t.subscriptions[Least(subs)].planId in t.plans ==> r.Ok?)
    ensures r.Ok? ==>
      var v := r.value;
      && UsersWithCustomerId(t.users, customerId) == {v.id}
      && v.user == t.users[v.id] && v.user.customerId == Some(customerId)
      && SubscriptionsOfUser(t.subscriptions, v.id) == {v.subscription.id}
      && t.subscriptions[v.subscription.id] == v.subscription.subscription
      && v.subscription.subscription.planId in t.plans
      && v.subscription.planKey == t.plans[v.subscription.subscription.planId].key
  {
    var userLookup := Unique(UsersWithCustomerId(t.users, customerId));
    if userLookup.Many? then Err(NotUnique)
    else if userLookup.NoMatch? then Err(StripeSomethingWentWrong)
    else
      var userId := userLookup.key;
      var subLookup := Unique(SubscriptionsOfUser(t.subscriptions, userId));
      if subLookup.Many? then Err(NotUnique)
      else if subLookup.NoMatch? then Err(StripeSomethingWentWrong)
      else
        var sub := t.subscriptions[subLookup.key];
        if sub.planId !in t.plans then Err(StripeSomethingWentWrong)
        else Ok(CustomerView(userId, t.users[userId], App.SubscriptionView(subLookup.key, sub, t.plans[sub.planId].key)))
  }

  // -----------------------------------------------------------------------
  // Subscription lifecycle

  /** The arguments of `PREAUTH_createSubscription`. */
  datatype SubscriptionArgs = SubscriptionArgs(
    userId: UserId,
    planId: PlanId,
    priceStripeId: string,
    currency: Currency,
    stripeSubscriptionId: string,
    status: string,
    interval: Interval,
    currentPeriodStart: int,
    currentPeriodEnd: int,
    cancelAtPeriodEnd: bool)

  /** The record `PREAUTH_createSubscription` inserts: the arguments, with `stripeSubscriptionId` as `stripeId`. */
  function RecordOf(a: SubscriptionArgs): (s: Subscription)
    ensures s.userId == a.userId && s.planId == a.planId && s.priceStripeId == a.priceStripeId
    ensures s.stripeId == a.stripeSubscriptionId && s.currency == a.currency && s.interval == a.interval
    ensures s.status == a.status && s.currentPeriodStart == a.currentPeriodStart
    ensures s.currentPeriodEnd == a.currentPeriodEnd && s.cancelAtPeriodEnd == a.cancelAtPeriodEnd
  {
    Subscription(a.userId, a.planId, a.priceStripeId, a.stripeSubscriptionId, a.currency, a.interval,
                 a.status, a.currentPeriodStart, a.currentPeriodEnd, a.cancelAtPeriodEnd)
  }

  /**
   * `PREAUTH_createSubscription`: refuses when the user already has a
   * subscription, otherwise inserts exactly one record built from the
   * arguments. It keeps every user at one subscription at most.
   */
  function CreateSubscriptionOutcome(t: Tables, a: SubscriptionArgs): (o: Outcome<()>)
    ensures o.result.Ok? <==> SubscriptionsOfUser(t.subscriptions, a.userId) == {}
    ensures |SubscriptionsOfUser(t.subscriptions, a.userId)| == 1 ==> o.result == Err(SubscriptionAlreadyExists)
    ensures o.result.Err? ==> o.after == t
    ensures o.result.Ok? ==>
      && o.after == t.(subscriptions := t.subscriptions[t.nextId := RecordOf(a)], nextId := t.nextId + 1)
      && SubscriptionsOfUser(o.after.subscriptions, a.userId) == {t.nextId}
    ensures Consistent(t) ==> Consistent(o.after)
  {
    var lookup := Unique(SubscriptionsOfUser(t.subscriptions, a.userId));
    if lookup.Many? then Outcome(t, Err(NotUnique))
    else if lookup.One? then Outcome(t, Err(SubscriptionAlreadyExists))
    else
      var t' := t.(subscriptions := t.subscriptions[t.nextId := RecordOf(a)], nextId := t.nextId + 1);
      assert SubscriptionsOfUser(t'.subscriptions, a.userId) == {t.nextId};
      Outcome(t', Ok(()))
  }

  method CreateSubscription(db: Db, a: SubscriptionArgs) returns (r: Result<()>)
    requires db.Valid()
    modifies db
    ensures db.Valid()
    ensures Outcome(db.State(), r) == CreateSubscriptionOutcome(old(db.State()), a)
  {
    var subscription := Unique(SubscriptionsOfUser(db.subscriptions, a.userId));
    if subscription.Many? {
      return Err(NotUnique);
    }
    if subscription.One? {
      return Err(SubscriptionAlreadyExists);
    }
    db.subscriptions := db.subscriptions[db.nextId := RecordOf(a)];
    db.nextId := db.nextId + 1;
    r := Ok(());
  }

  /** The `input` object of `PREAUTH_replaceSubscription`. */
  datatype ReplacementInput = ReplacementInput(
    currency: Currency,
    planStripeId: string,
    priceStripeId: string,
    interval: Interval,
    status: string,
    currentPeriodStart: int,
    currentPeriodEnd: int,
    cancelAtPeriodEnd: bool)

  /** The record `PREAUTH_replaceSubscription` inserts for the plan with id `planId`. */
  function ReplacementOf(userId: UserId, subscriptionStripeId: string, planId: PlanId, input: ReplacementInput): (s: Subscription)
    ensures s.userId == userId && s.planId == planId && s.stripeId == subscriptionStripeId
    ensures s.priceStripeId == input.priceStripeId && s.interval == input.interval && s.status == input.status
    ensures s.currency == input.currency && s.currentPeriodStart == input.currentPeriodStart
    ensures s.currentPeriodEnd == input.currentPeriodEnd && s.cancelAtPeriodEnd == input.cancelAtPeriodEnd
  {
    Subscription(userId, planId, input.priceStripeId, subscriptionStripeId, input.currency, input.interval,
                 input.status, input.currentPeriodStart, input.currentPeriodEnd, input.cancelAtPeriodEnd)
  }

  /**
   * `PREAUTH_replaceSubscription`: deletes the user's subscription, then looks
   * up the plan by its Stripe id and inserts the new record. It fails when the
   * user has no subscription or no plan has that Stripe id; the deletion is
   * undone with the rest of the transaction then.
   */
  function ReplaceSubscriptionOutcome(t: Tables, userId: UserId, subscriptionStripeId: string, input: ReplacementInput): (o: Outcome<()>)
    ensures SubscriptionsOfUser(t.subscriptions, userId) == {} ==> o == Outcome(t, Err(StripeSomethingWentWrong))
    ensures PlansWithStripeId(t.plans, input.planStripeId) == {} ==> o.result.Err?
    ensures o.result.Ok? <==>
      |SubscriptionsOfUser(t.subscriptions, userId)| == 1 && |PlansWithStripeId(t.plans, input.planStripeId)| == 1
    ensures o.result.Err? ==> o.after == t
    ensures o.result.Ok? ==>
      && |SubscriptionsOfUser(t.subscriptions, userId)| == 1
      && t.nextId in o.after.subscriptions
      && PlansWithStripeId(t.plans, input.planStripeId) == {o.after.subscriptions[t.nextId].planId}
      && o.after.subscriptions ==
        (t.subscriptions - SubscriptionsOfUser(t.subscriptions, userId))[t.nextId := o.after.subscriptions[t.nextId]]
      && o.after.subscriptions[t.nextId] ==
        ReplacementOf(userId, subscriptionStripeId, o.after.subscriptions[t.nextId].planId, input)
      && SubscriptionsOfUser(o.after.subscriptions, userId) == {t.nextId}
      && o.after == t.(subscriptions := o.after.subscriptions, nextId := t.nextId + 1)
    ensures Consistent(t) ==> Consistent(o.after)
  {
    var lookup := Unique(SubscriptionsOfUser(t.subscriptions, userId));
    if lookup.Many? then Outcome(t, Err(NotUnique))
    else if lookup.NoMatch? then Outcome(t, Err(StripeSomethingWentWrong))
    else
      var plan := Unique(PlansWithStripeId(t.plans, input.planStripeId));
      if plan.Many? then Outcome(t, Err(NotUnique))
      else if plan.NoMatch? then Outcome(t, Err(StripeSomethingWentWrong))
      else
        var subs := (t.subscriptions - {lookup.key})[t.nextId := ReplacementOf(userId, subscriptionStripeId, plan.key, input)];
        assert SubscriptionsOfUser(subs, userId) == {t.nextId};
        Outcome(t.(subscriptions := subs, nextId := t.nextId + 1), Ok(()))
  }

  method ReplaceSubscription(db: Db, userId: UserId, subscriptionStripeId: string, input: ReplacementInput) returns (r: Result<()>)
    requires db.Valid()
    modifies db
    ensures db.Valid()
    ensures Outcome(db.State(), r) == ReplaceSubscriptionOutcome(old(db.State()), userId, subscriptionStripeId, input)
  {
    var before := db.State();
    var subscription := Unique(SubscriptionsOfUser(db.subscriptions, userId));
    if subscription.Many? {
      return Err(NotUnique);
    }
    if subscription.NoMatch? {
      return Err(StripeSomethingWentWrong);
    }
    db.subscriptions := db.subscriptions - {subscription.key};
    var plan := Unique(PlansWithStripeId(db.plans, input.planStripeId));
    if plan.Many? || plan.NoMatch? {
      // the mutation throws, so the deletion above is rolled back
      db.Rollback(before);
      return Err(if plan.Many? then NotUnique else StripeSomethingWentWrong);
    }
    db.subscriptions := db.subscriptions[db.nextId := ReplacementOf(userId, subscriptionStripeId, plan.key, input)];
    db.nextId := db.nextId + 1;
    r := Ok(());
  }

  /**
   * `PREAUTH_deleteSubscription`: removes the one subscription with that
   * Stripe id and nothing else; fails when there is none.
   */
  function DeleteSubscriptionOutcome(t: Tables, subscriptionStripeId: string): (o: Outcome<()>)
    ensures SubscriptionsWithStripeId(t.subscriptions, subscriptionStripeId) == {} ==> o == Outcome(t, Err(StripeSomethingWentWrong))
    ensures o.result.Ok? <==> |SubscriptionsWithStripeId(t.subscriptions, subscriptionStripeId)| == 1
    ensures o.result.Err? ==> o.after == t
    ensures o.result.Ok? ==>
      && o.after == t.(subscriptions := t.subscriptions - SubscriptionsWithStripeId(t.subscriptions, subscriptionStripeId))
      && |o.after.subscriptions| == |t.subscriptions| - 1
      && forall k :: k in o.after.subscriptions ==> k in t.subscriptions && o.after.subscriptions[k] == t.subscriptions[k]
    ensures Consistent(t) ==> Consistent(o.after)
  {
    var lookup := Unique(SubscriptionsWithStripeId(t.subscriptions, subscriptionStripeId));
    if lookup.Many? then Outcome(t, Err(NotUnique))
    else if lookup.NoMatch? then Outcome(t, Err(StripeSomethingWentWrong))
    else Outcome(t.(subscriptions := t.subscriptions - {lookup.key}), Ok(()))
  }

  method DeleteSubscription(db: Db, subscriptionStripeId: string) returns (r: Result<()>)
    requires db.Valid()
    modifies db
    ensures db.Valid()
    ensures Outcome(db.State(), r) == DeleteSubscriptionOutcome(old(db.State()), subscriptionStripeId)
  {
    var subscription := Unique(SubscriptionsWithStripeId(db.subscriptions, subscriptionStripeId));
    if subscription.Many? {
      return Err(NotUnique);
    }
    if subscription.NoMatch? {
      return Err(StripeSomethingWentWrong);
    }
    db.subscriptions := db.subscriptions - {subscription.key};
    r := Ok(());
  }

  // -----------------------------------------------------------------------
  // Onboarding: the default plan, the free subscription, the customer

  /** `UNAUTH_getDefaultPlan`: the one free plan, nothing when there is none. */
  function GetDefaultPlan(t: Tables): (r: Result<Option<PlanDoc>>)
    ensures r.Err? <==> |PlansWithKey(t.plans, Free)| > 1
    ensures r.Err? ==> r.error == NotUnique
    ensures r == Ok(None) <==> PlansWithKey(t.plans, Free) == {}
    ensures r.Ok? && r.value.Some? ==>
      && PlansWithKey(t.plans, Free) == {r.value.value.id}
      && t.plans[r.value.value.id] == r.value.value.plan
  {
    var lookup := Unique(PlansWithKey(t.plans, Free));
    if lookup.Many? then Err(NotUnique)
    else if lookup.NoMatch? then Ok(None)
    else Ok(Some(PlanDoc(lookup.key, t.plans[lookup.key])))
  }

  /**
   * `prices[interval][currency]`, read the way the handlers test it: a
   * price whose `stripeId` is the empty string is as good as none.
   */
  function PriceWithStripeId(m: PriceMatrix, i: Interval, c: Currency): (r: Option<Price>)
    ensures r.Some? <==> m.Get(i, c).Some? && m.Get(i, c).value.stripeId != ""
    ensures r.Some? ==> r == m.Get(i, c)
  {
    var cell := m.Get(i, c);
    if cell.Some? && cell.value.stripeId != "" then cell else None
  }

  /** What `stripe.subscriptions.create` returns, as far as the handlers read it. */
  datatype StripeSubscription = StripeSubscription(
    id: string,
    status: string,
    priceId: string,            // items.data[0].price.id
    currentPeriodStart: int,
    currentPeriodEnd: int,
    cancelAtPeriodEnd: bool)

  /** The arguments `PREAUTH_createFreeStripeSubscription` passes to `PREAUTH_createSubscription`. */
  function FreeSubscriptionArgs(userId: UserId, planId: PlanId, currency: Currency, s: StripeSubscription): (a: SubscriptionArgs)
    ensures a.userId == userId && a.planId == planId && a.currency == currency && a.interval == Year
    ensures a.priceStripeId == s.priceId && a.stripeSubscriptionId == s.id && a.status == s.status
    ensures a.currentPeriodStart == s.currentPeriodStart && a.currentPeriodEnd == s.currentPeriodEnd
    ensures a.cancelAtPeriodEnd == s.cancelAtPeriodEnd
  {
    SubscriptionArgs(userId, planId, s.priceId, currency, s.id, s.status, Year,
                     s.currentPeriodStart, s.currentPeriodEnd, s.cancelAtPeriodEnd)
  }

  /**
   * `PREAUTH_createFreeStripeSubscription`: the free plan and its yearly price
   * in the currency are looked up; then two separate mutations record the
   * subscription and set the user's `customerId`. `created` is the
   * subscription Stripe created for that price.
   */
  function CreateFreeStripeSubscriptionOutcome(t: Tables, userId: UserId, customerId: string, currency: Currency,
                                               created: Option<StripeSubscription>): (o: Outcome<()>)
    ensures (GetDefaultPlan(t) == Ok(None)
             || (GetDefaultPlan(t).Ok? && PriceWithStripeId(GetDefaultPlan(t).value.value.plan.prices, Year, currency).None?))
      ==> o == Outcome(t, Err(StripeSomethingWentWrong))
    ensures o.result.Err? && o.result.error != MissingDocument ==> o.after == t
    ensures o.result.Ok? <==>
      && |PlansWithKey(t.plans, Free)| == 1
      && (var prices := t.plans[Least(PlansWithKey(t.plans, Free))].prices;
          prices.Get(Year, currency).Some? && prices.Get(Year, currency).value.stripeId != "")
      && created.Some?
      && SubscriptionsOfUser(t.subscriptions, userId) == {}
      && userId in t.users
    ensures o.result.Ok? ==>
      && GetDefaultPlan(t).Ok? && GetDefaultPlan(t).value.Some?
      && PriceWithStripeId(GetDefaultPlan(t).value.value.plan.prices, Year, currency).Some?
      && created.Some?
      && (var a := FreeSubscriptionArgs(userId, GetDefaultPlan(t).value.value.id, currency, created.value);
          && o == UpdateCustomerIdOutcome(CreateSubscriptionOutcome(t, a).after, userId, customerId)
          && t.nextId in o.after.subscriptions
          && o.after.subscriptions[t.nextId] == RecordOf(a)
          && o.after.subscriptions[t.nextId].interval == Year
          && o.after.plans[o.after.subscriptions[t.nextId].planId].key == Free
          && userId in o.after.users && o.after.users[userId].customerId == Some(customerId))
  {
    var plan := GetDefaultPlan(t);
    if plan.Err? then Outcome(t, Err(plan.error))
    else if plan.value.None? then Outcome(t, Err(StripeSomethingWentWrong))
    else
      var yearlyPrice := PriceWithStripeId(plan.value.value.plan.prices, Year, currency);
      if yearlyPrice.None? || created.None? then Outcome(t, Err(StripeSomethingWentWrong))
      else
        var a := FreeSubscriptionArgs(userId, plan.value.value.id, currency, created.value);
        var step := CreateSubscriptionOutcome(t, a);
        if step.result.Err? then step
        else UpdateCustomerIdOutcome(step.after, userId, customerId)
  }

  method CreateFreeStripeSubscription(db: Db, userId: UserId, customerId: string, currency: Currency,
                                      created: Option<StripeSubscription>) returns (r: Result<()>)
    requires db.Valid()
    modifies db
    ensures db.Valid()
    ensures Outcome(db.State(), r) == CreateFreeStripeSubscriptionOutcome(old(db.State()), userId, customerId, currency, created)
  {
    var plan := GetDefaultPlan(db.State());
    if plan.Err? {
      return Err(plan.error);
    }
    if plan.value.None? {
      return Err(StripeSomethingWentWrong);
    }
    var yearlyPrice := PriceWithStripeId(plan.value.value.plan.prices, Year, currency);
    if yearlyPrice.None? || created.None? {
      return Err(StripeSomethingWentWrong);
    }
    r := CreateSubscription(db, FreeSubscriptionArgs(userId, plan.value.value.id, currency, created.value));
    if r.Err? {
      return;
    }
    r := UpdateCustomerId(db, userId, customerId);
  }

  /**
   * The two steps of the action are not one transaction: when the user
   * document is missing, the subscription is recorded and stays recorded
   * although the action fails at the customer id.
   */
  lemma FreeSubscriptionSurvivesFailedCustomerUpdate(t: Tables, userId: UserId, customerId: string, currency: Currency,
                                                     created: StripeSubscription)
    requires userId !in t.users
    requires GetDefaultPlan(t).Ok? && GetDefaultPlan(t).value.Some?
    requires PriceWithStripeId(GetDefaultPlan(t).value.value.plan.prices, Year, currency).Some?
    requires SubscriptionsOfUser(t.subscriptions, userId) == {}
    ensures var o := CreateFreeStripeSubscriptionOutcome(t, userId, customerId, currency, Some(created));
      && o.result == Err(MissingDocument)
      && SubscriptionsOfUser(o.after.subscriptions, userId) == {t.nextId}
      && o.after.subscriptions[t.nextId].planId == GetDefaultPlan(t).value.value.id
  {
    var a := FreeSubscriptionArgs(userId, GetDefaultPlan(t).value.value.id, currency, created);
    assert CreateSubscriptionOutcome(t, a).result.Ok?;
  }

  /**
   * `PREAUTH_createStripeCustomer`: refused when the user is missing or
   * already has a customer, or when Stripe created none (`customer` is the
   * created customer's id); otherwise it runs the free-subscription action.
   */
  function CreateStripeCustomerOutcome(t: Tables, currency: Currency, userId: UserId, customer: Option<string>,
                                       created: Option<StripeSubscription>): (o: Outcome<()>)
    ensures userId !in t.users || HasCustomer(t.users[userId]) || customer.None? ==>
      o == Outcome(t, Err(StripeCustomerNotCreated))
    ensures !(userId !in t.users || HasCustomer(t.users[userId]) || customer.None?) ==>
      o == CreateFreeStripeSubscriptionOutcome(t, userId, customer.value, currency, created)
  {
    var user := GetUserById(t, userId);
    if user.None? || HasCustomer(user.value) then Outcome(t, Err(StripeCustomerNotCreated))
    else if customer.None? then Outcome(t, Err(StripeCustomerNotCreated))
    else CreateFreeStripeSubscriptionOutcome(t, userId, customer.value, currency, created)
  }

  method CreateStripeCustomer(db: Db, currency: Currency, userId: UserId, customer: Option<string>,
                              created: Option<StripeSubscription>) returns (r: Result<()>)
    requires db.Valid()
    modifies db
    ensures db.Valid()
    ensures Outcome(db.State(), r) == CreateStripeCustomerOutcome(old(db.State()), currency, userId, customer, created)
  {
    var user := GetUserById(db.State(), userId);
    if user.None? || HasCustomer(user.value) {
      return Err(StripeCustomerNotCreated);
    }
    if customer.None? {
      return Err(StripeCustomerNotCreated);
    }
    r := CreateFreeStripeSubscription(db, userId, customer.value, currency, created);
  }

  /**
   * Customer creation is never repeated: once it has succeeded with a
   * non-empty customer id, running it again for the same user is refused and
   * changes nothing, whatever Stripe would return.
   */
  lemma CustomerCreationNotRepeated(t: Tables, currency: Currency, userId: UserId, customerId: string,
                                    created: Option<StripeSubscription>, currency2: Currency,
                                    customer2: Option<string>, created2: Option<StripeSubscription>)
    requires customerId != ""
    requires CreateStripeCustomerOutcome(t, currency, userId, Some(customerId), created).result.Ok?
    ensures var t' := CreateStripeCustomerOutcome(t, currency, userId, Some(customerId), created).after;
      CreateStripeCustomerOutcome(t', currency2, userId, customer2, created2) == Outcome(t', Err(StripeCustomerNotCreated))
  {
    var o := CreateFreeStripeSubscriptionOutcome(t, userId, customerId, currency, created);
    assert o.after.users[userId].customerId == Some(customerId);
  }

  // -----------------------------------------------------------------------
  // Checkout

  /** The current subscription joined with its plan, and the plan asked for. */
  datatype CurrentSubscription = CurrentSubscription(
    id: SubscriptionId, subscription: Subscription, plan: Option<Plan>, newPlan: Option<Plan>)

  /**
   * `getCurrentUserSubscription`: the caller's one subscription with its
   * plan (which may be missing), and the plan with id `planId` (likewise).
   */
  function GetCurrentUserSubscription(t: Tables, auth: Option<UserId>, planId: PlanId): (r: Result<CurrentSubscription>)
    ensures auth.None? ==> r == Err(StripeSomethingWentWrong)
    ensures auth.Some? && SubscriptionsOfUser(t.subscriptions, auth.value) == {} ==> r == Err(StripeSomethingWentWrong)
    ensures auth.Some? && |SubscriptionsOfUser(t.subscriptions, auth.value)| > 1 ==> r == Err(NotUnique)
    ensures r.Ok? <==> auth.Some? && |SubscriptionsOfUser(t.subscriptions, auth.value)| == 1
    ensures r.Ok? ==>
      && auth.Some? && SubscriptionsOfUser(t.subscriptions, auth.value) == {r.value.id}
      && r.value.subscription == t.subscriptions[r.value.id]
      && r.value.plan == GetPlan(t, r.value.subscription.planId)
      && r.value.newPlan == GetPlan(t, planId)
  {
    if auth.None? then Err(StripeSomethingWentWrong)
    else
      var lookup := Unique(SubscriptionsOfUser(t.subscriptions, auth.value));
      if lookup.Many? then Err(NotUnique)
      else if lookup.NoMatch? then Err(StripeSomethingWentWrong)
      else
        var sub := t.subscriptions[lookup.key];
        Ok(CurrentSubscription(lookup.key, sub, GetPlan(t, sub.planId), GetPlan(t, planId)))
  }

  /** `ctx.db.get` on the plans table. */
  function GetPlan(t: Tables, planId: PlanId): (r: Option<Plan>)
    ensures r.Some? <==> planId in t.plans
    ensures r.Some? ==> r.value == t.plans[planId]
  {
    if planId in t.plans then Some(t.plans[planId]) else None
  }

  /**
   * The decision `createSubscriptionCheckout` takes before calling Stripe: an
   * error, no checkout (`Ok(None)`, the caller is already on a paid plan), or
   * a checkout for the price with the returned Stripe id. The price is the
   * new plan's exact (interval, currency) cell; there is no fallback to
   * another currency. Both queries are read off the same snapshot `t`.
   */
  function CheckoutDecision(t: Tables, auth: Option<UserId>, planId: PlanId, interval: Interval, currency: Currency): (r: Result<Option<string>>)
    ensures auth.None? ==> r.Err?
    ensures auth.Some? && (auth.value !in t.users || !HasCustomer(t.users[auth.value])) ==> r.Err?
    ensures r.Ok? ==>
      && auth.Some? && auth.value in t.users && HasCustomer(t.users[auth.value])
      && |SubscriptionsOfUser(t.subscriptions, auth.value)| == 1
    ensures r.Ok? && r.value.None? ==>
      var cs := GetCurrentUserSubscription(t, auth, planId).value;
      cs.plan.Some? && cs.plan.value.key != Free
    ensures r.Ok? && r.value.Some? ==>
      var cs := GetCurrentUserSubscription(t, auth, planId).value;
      && cs.plan.Some? && cs.plan.value.key == Free
      && planId in t.plans
      && PriceWithStripeId(t.plans[planId].prices, interval, currency) == t.plans[planId].prices.Get(interval, currency)
      && t.plans[planId].prices.Get(interval, currency).Some?
      && r.value.value == t.plans[planId].prices.Get(interval, currency).value.stripeId
      && r.value.value != ""
  {
    // the avatar URL plays no part in the decision
    var user := App.GetCurrentUser(t, auth, None);
    if user.Err? then Err(user.error)
    else if user.value.None? || !HasCustomer(user.value.value.user) then Err(StripeSomethingWentWrong)
    else
      var current := GetCurrentUserSubscription(t, auth, planId);
      if current.Err? then Err(current.error)
      else if current.value.plan.None? then Err(StripeSomethingWentWrong)
      else if current.value.plan.value.key != Free then Ok(None)
      else if current.value.newPlan.None? then Err(StripeSomethingWentWrong)
      else
        var price := PriceWithStripeId(current.value.newPlan.value.prices, interval, currency);
        if price.None? then Err(StripeSomethingWentWrong)
        else Ok(Some(price.value.stripeId))
  }

  /** Only a subscriber currently on the free plan gets a checkout. */
  lemma CheckoutOnlyFromFreePlan(t: Tables, userId: UserId, planId: PlanId, interval: Interval, currency: Currency)
    requires Consistent(t) && userId in t.users && HasCustomer(t.users[userId])
    requires SubscriptionsOfUser(t.subscriptions, userId) != {}
    ensures var sub := t.subscriptions[Least(SubscriptionsOfUser(t.subscriptions, userId))];
      && (sub.planId in t.plans && t.plans[sub.planId].key != Free ==>
            CheckoutDecision(t, Some(userId), planId, interval, currency) == Ok(None))
      && (sub.planId !in t.plans ==>
            CheckoutDecision(t, Some(userId), planId, interval, currency) == Err(StripeSomethingWentWrong))
      && (sub.planId in t.plans && t.plans[sub.planId].key == Free ==>
            CheckoutDecision(t, Some(userId), planId, interval, currency) ==
              if planId in t.plans && PriceWithStripeId(t.plans[planId].prices, interval, currency).Some?
              then Ok(Some(t.plans[planId].prices.Get(interval, currency).value.stripeId))
              else Err(StripeSomethingWentWrong))
  {
    UserLookupNeverMany(t.subscriptions, userId);
    App.CurrentUserNeverThrows(t, userId, None);
  }

  /** What `stripe.checkout.sessions.create` returns, as far as the handler reads it. */
  datatype CheckoutSession = CheckoutSession(url: Option<string>)

  /**
   * `createSubscriptionCheckout`: the decision, then the session created for
   * the chosen price (`session`, None when Stripe returns nothing); the
   * result is the session's URL, with "" read as no URL.
   */
  function CreateSubscriptionCheckout(t: Tables, auth: Option<UserId>, planId: PlanId, interval: Interval,
                                      currency: Currency, session: Option<CheckoutSession>): (r: Result<Option<string>>)
    ensures CheckoutDecision(t, auth, planId, interval, currency).Err? ==> r == Err(CheckoutDecision(t, auth, planId, interval, currency).error)
    ensures CheckoutDecision(t, auth, planId, interval, currency) == Ok(None) ==> r == Ok(None)
    ensures CheckoutDecision(t, auth, planId, interval, currency).Ok? && CheckoutDecision(t, auth, planId, interval, currency).value.Some? ==>
      r == if session.None? then Err(StripeSomethingWentWrong) else Ok(App.Truthy(session.value.url))
  {
    var decision := CheckoutDecision(t, auth, planId, interval, currency);
    if decision.Err? then Err(decision.error)
    else if decision.value.None? then Ok(None)
    else if session.None? then Err(StripeSomethingWentWrong)
    else Ok(App.Truthy(session.value.url))
  }

  // -----------------------------------------------------------------------
  // Catalogue sync

  /** `findPlanByStripeId`: the one plan with that Stripe product id. */
  function FindPlanByStripeId(t: Tables, stripeId: string): (r: Result<Option<PlanDoc>>)
    ensures r.Err? <==> |PlansWithStripeId(t.plans, stripeId)| > 1
    ensures r.Err? ==> r.error == NotUnique
    ensures r == Ok(None) <==> PlansWithStripeId(t.plans, stripeId) == {}
    ensures r.Ok? && r.value.Some? ==>
      && PlansWithStripeId(t.plans, stripeId) == {r.value.value.id}
      && t.plans[r.value.value.id] == r.value.value.plan
  {
    var lookup := Unique(PlansWithStripeId(t.plans, stripeId));
    if lookup.Many? then Err(NotUnique)
    else if lookup.NoMatch? then Ok(None)
    else Ok(Some(PlanDoc(lookup.key, t.plans[lookup.key])))
  }

  /** `insertPlan`: one new plan; the write fails validation when its prices carry an unknown currency. */
  function InsertPlanOutcome(t: Tables, plan: Plan, foreignCurrency: bool): (o: Outcome<()>)
    ensures o.result.Err? <==> foreignCurrency
    ensures o.result.Err? ==> o == Outcome(t, Err(SchemaMismatch))
    ensures o.result.Ok? ==> o.after == t.(plans := t.plans[t.nextId := plan], nextId := t.nextId + 1)
    ensures Consistent(t) ==> Consistent(o.after) && (o.result.Ok? ==> t.nextId !in t.plans)
  {
    if foreignCurrency then Outcome(t, Err(SchemaMismatch))
    else Outcome(t.(plans := t.plans[t.nextId := plan], nextId := t.nextId + 1), Ok(()))
  }

  method InsertPlan(db: Db, key: PlanKey, stripeId: string, name: string, description: string, prices: PriceMap) returns (r: Result<()>)
    requires db.Valid()
    modifies db
    ensures db.Valid()
    ensures Outcome(db.State(), r) == InsertPlanOutcome(old(db.State()), Plan(key, stripeId, name, description, prices.matrix), prices.foreignCurrency)
  {
    if prices.foreignCurrency {
      return Err(SchemaMismatch);
    }
    db.plans := db.plans[db.nextId := Plan(key, stripeId, name, description, prices.matrix)];
    db.nextId := db.nextId + 1;
    r := Ok(());
  }

  /** The `data` object the sync patches onto an existing plan. */
  datatype PlanPatch = PlanPatch(key: PlanKey, name: string, description: string, prices: PriceMap)

  /**
   * `updatePlanByStripeId`: patches the one plan with that Stripe id; does
   * nothing when there is none.
   */
  function UpdatePlanByStripeIdOutcome(t: Tables, stripeId: string, data: PlanPatch): (o: Outcome<()>)
    ensures PlansWithStripeId(t.plans, stripeId) == {} ==> o == Outcome(t, Ok(()))
    ensures o.result.Err? ==> o.after == t
    ensures o.result.Err? <==> |PlansWithStripeId(t.plans, stripeId)| > 1 || (|PlansWithStripeId(t.plans, stripeId)| == 1 && data.prices.foreignCurrency)
    ensures |PlansWithStripeId(t.plans, stripeId)| == 1 && o.result.Ok? ==>
      var k := Least(PlansWithStripeId(t.plans, stripeId));
      o.after == t.(plans := t.plans[k := Plan(data.key, stripeId, data.name, data.description, data.prices.matrix)])
    ensures Consistent(t) ==> Consistent(o.after)
  {
    var lookup := Unique(PlansWithStripeId(t.plans, stripeId));
    if lookup.Many? then Outcome(t, Err(NotUnique))
    else if lookup.NoMatch? then Outcome(t, Ok(()))
    else if data.prices.foreignCurrency then Outcome(t, Err(SchemaMismatch))
    else
      var p := t.plans[lookup.key];
      Outcome(t.(plans := t.plans[lookup.key := p.(key := data.key, name := data.name, description := data.description,
                                                   prices := data.prices.matrix)]), Ok(()))
  }

  method UpdatePlanByStripeId(db: Db, stripeId: string, data: PlanPatch) returns (r: Result<()>)
    requires db.Valid()
    modifies db
    ensures db.Valid()
    ensures Outcome(db.State(), r) == UpdatePlanByStripeIdOutcome(old(db.State()), stripeId, data)
  {
    var plan := Unique(PlansWithStripeId(db.plans, stripeId));
    if plan.Many? {
      return Err(NotUnique);
    }
    if plan.NoMatch? {
      return Ok(());
    }
    if data.prices.foreignCurrency {
      return Err(SchemaMismatch);
    }
    var p := db.plans[plan.key];
    db.plans := db.plans[plan.key := p.(key := data.key, name := data.name, description := data.description,
                                        prices := data.prices.matrix)];
    r := Ok(());
  }

  /**
   * `syncStripeProductsToConvex`, given the `products.list` and
   * `prices.list` results: for each product, its recurring prices, the
   * price map, the key, and the upsert through the query and mutations
   * above. It leaves exactly the store `SyncAll` describes.
   */
  method SyncStripeProductsToConvex(db: Db, products: seq<StripeProduct>, prices: seq<StripePrice>) returns (r: Result<()>)
    requires db.Valid()
    modifies db
    ensures db.Valid()
    ensures (db.State(), r) == SyncAll(old(db.State()), products, prices)
  {
    ghost var start := db.State();
    var i := 0;
    while i < |products|
      invariant 0 <= i <= |products|
      invariant db.Valid()
      invariant SyncAll(start, products, prices) == SyncAll(db.State(), products[i..], prices)
    {
      var product := products[i];
      assert products[i..][0] == product && products[i..][1..] == products[i + 1..];
      var productPrices := RecurringPricesOf(prices, product.id);
      if |productPrices| == 0 {
        i := i + 1;
        continue;
      }
      var priceMap := BuildPriceMap(productPrices);
      if priceMap.Err? {
        return Err(priceMap.error);
      }
      var key := ClassifyKey(product.name);
      var existing := FindPlanByStripeId(db.State(), product.id);
      if existing.Err? {
        return Err(existing.error);
      }
      var description := DescriptionOrEmpty(product.description);
      var written;
      if existing.value.Some? {
        written := UpdatePlanByStripeId(db, product.id, PlanPatch(key, product.name, description, priceMap.value));
      } else {
        written := InsertPlan(db, key, product.id, product.name, description, priceMap.value);
      }
      if written.Err? {
        return written;
      }
      i := i + 1;
    }
    assert products[i..] == [];
    r := Ok(());
  }
}
