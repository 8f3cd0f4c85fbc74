/**
 * The user, plan and tenant-app handlers of the backend (convex/app.ts).
 * `auth` is what `auth.getUserId(ctx)` yields for the caller. Each mutation
 * is a module-level method that takes the store `db: Db`, proved to leave exactly the outcome its
 * value-level description (the function of the same name with `Outcome`
 * appended) gives; a failing mutation leaves the store as it was.
 */
module App {
  import opened Wrappers
  import opened Schema
  import opened Store

  // -----------------------------------------------------------------------
  // getCurrentUser

  /** The subscription a user view carries, with the key of its plan. */
  datatype SubscriptionView = SubscriptionView(id: SubscriptionId, subscription: Subscription, planKey: PlanKey)

  /** The user document extended with `avatarUrl` and `subscription`. */
  datatype UserView = UserView(id: UserId, user: User, avatarUrl: Option<string>, subscription: Option<SubscriptionView>)

  /** JavaScript `s || undefined` on an optional string. */
  function Truthy(s: Option<string>): (r: Option<string>)
    ensures r.Some? <==> s.Some? && s.value != ""
    ensures r.Some? ==> r == s
  {
    if s.Some? && s.value != "" then s else None
  }

  /**
   * `user.imageId ? storage.getUrl(user.imageId) : user.image`, then
   * `|| undefined`; `storageUrl` is what the storage service returns for the
   * user's `imageId`.
   */
  function AvatarUrl(u: User, storageUrl: Option<string>): (r: Option<string>)
    ensures r.Some? ==> r.value != ""
    ensures u.imageId.Some? ==> r == Truthy(storageUrl)
    ensures u.imageId.None? ==> r == Truthy(u.image)
  {
    Truthy(if u.imageId.Some? then storageUrl else u.image)
  }

  /**
   * The caller's user document, with its subscription attached exactly when
   * both the subscription and the plan it points at exist. Nothing when
   * unauthenticated or when the user document is missing; the `userId`
   * lookup throws when it matches several subscriptions.
   */
  function GetCurrentUser(t: Tables, auth: Option<UserId>, storageUrl: Option<string>): (r: Result<Option<UserView>>)
    ensures auth.None? ==> r == Ok(None)
    ensures auth.Some? && |SubscriptionsOfUser(t.subscriptions, auth.value)| > 1 ==> r == Err(NotUnique)
    ensures r.Err? ==> r.error == NotUnique
    ensures auth.Some? && auth.value !in t.users ==> r.Err? || r == Ok(None)
    ensures r.Ok? && r.value.Some? ==>
      var view := r.value.value;
      && auth.Some? && auth.value in t.users
      && view.id == auth.value && view.user == t.users[auth.value]
      && view.avatarUrl == AvatarUrl(view.user, storageUrl)
    ensures r.Ok? && r.value.Some? && r.value.value.subscription.Some? ==>
      var sv := r.value.value.subscription.value;
      && SubscriptionsOfUser(t.subscriptions, auth.value) == {sv.id}
      && t.subscriptions[sv.id] == sv.subscription
      && sv.subscription.planId in t.plans
      && sv.planKey == t.plans[sv.subscription.planId].key
    ensures r.Ok? && r.value.Some? && r.value.value.subscription.None? ==>
      forall k :: k in t.subscriptions && t.subscriptions[k].userId == auth.value ==>
        t.subscriptions[k].planId !in t.plans
  {
    if auth.None? then Ok(None)
    else
      var userId := auth.value;
      var lookup := Unique(SubscriptionsOfUser(t.subscriptions, userId));
      if lookup.Many? then Err(NotUnique)
      else if userId !in t.users then Ok(None)
      else
        var user := t.users[userId];
        var attached :=
          if lookup.One? && t.subscriptions[lookup.key].planId in t.plans then
            var sub := t.subscriptions[lookup.key];
            Some(SubscriptionView(lookup.key, sub, t.plans[sub.planId].key))
          else None;
        Ok(Some(UserView(userId, user, AvatarUrl(user, storageUrl), attached)))
  }

  /** In a consistent store the query never throws, and it finds every existing user. */
  lemma CurrentUserNeverThrows(t: Tables, userId: UserId, storageUrl: Option<string>)
    requires Consistent(t)
    ensures GetCurrentUser(t, Some(userId), storageUrl).Ok?
    ensures GetCurrentUser(t, Some(userId), storageUrl).value.Some? <==> userId in t.users
  {
    UserLookupNeverMany(t.subscriptions, userId);
  }

  // -----------------------------------------------------------------------
  // Profile mutations

  /** Patching `{ username }` onto the caller; the patch throws when the user document is missing. */
  function UpdateUsernameOutcome(t: Tables, auth: Option<UserId>, username: string): (o: Outcome<()>)
    ensures auth.None? ==> o == Outcome(t, Ok(()))
    ensures o.result.Err? <==> auth.Some? && auth.value !in t.users
    ensures o.result.Err? ==> o == Outcome(t, Err(MissingDocument))
    ensures o.after.(users := t.users) == t
    ensures o.after.users.Keys == t.users.Keys
    ensures forall u :: u in t.users && Some(u) != auth ==> o.after.users[u] == t.users[u]
    ensures auth.Some? && auth.value in t.users ==>
      o.after.users[auth.value] == t.users[auth.value].(username := Some(username))
  {
    if auth.None? then Outcome(t, Ok(()))
    else if auth.value !in t.users then Outcome(t, Err(MissingDocument))
    else
      var u := auth.value;
      Outcome(t.(users := t.users[u := t.users[u].(username := Some(username))]), Ok(()))
  }

  method UpdateUsername(db: Db, auth: Option<UserId>, username: string) returns (r: Result<()>)
    requires db.Valid()
    modifies db
    ensures db.Valid()
    ensures Outcome(db.State(), r) == UpdateUsernameOutcome(old(db.State()), auth, username)
  {
    if auth.None? {
      return Ok(());
    }
    var userId := auth.value;
    if userId !in db.users {
      return Err(MissingDocument);
    }
    db.users := db.users[userId := db.users[userId].(username := Some(username))];
    r := Ok(());
  }

  /**
   * Onboarding sets the username of an existing user and asks the scheduler
   * to create a Stripe customer exactly when the user has no customer yet.
   */
  function CompleteOnboardingOutcome(t: Tables, auth: Option<UserId>, username: string, currency: Currency): (o: Outcome<()>)
    ensures o.result == Ok(())
    ensures o.after.(users := t.users, scheduled := t.scheduled) == t
    ensures auth.None? || auth.value !in t.users ==> o.after == t
    ensures auth.Some? && auth.value in t.users ==>
      && o.after.users == t.users[auth.value := t.users[auth.value].(username := Some(username))]
      && o.after.scheduled ==
        (if HasCustomer(t.users[auth.value]) then t.scheduled
         else t.scheduled + [CreateStripeCustomerJob(currency, auth.value)])
  {
    if auth.None? || auth.value !in t.users then Outcome(t, Ok(()))
    else
      var u := auth.value;
      var user := t.users[u];
      var t' := t.(users := t.users[u := user.(username := Some(username))]);
      if HasCustomer(user) then Outcome(t', Ok(()))
      else Outcome(t'.(scheduled := t'.scheduled + [CreateStripeCustomerJob(currency, u)]), Ok(()))
  }

  method CompleteOnboarding(db: Db, auth: Option<UserId>, username: string, currency: Currency) returns (r: Result<()>)
    requires db.Valid()
    modifies db
    ensures db.Valid()
    ensures Outcome(db.State(), r) == CompleteOnboardingOutcome(old(db.State()), auth, username, currency)
  {
    r := Ok(());
    if auth.None? {
      return;
    }
    var userId := auth.value;
    if userId !in db.users {
      return;
    }
    var user := db.users[userId];
    db.users := db.users[userId := user.(username := Some(username))];
    if HasCustomer(user) {
      return;
    }
    db.scheduled := db.scheduled + [CreateStripeCustomerJob(currency, userId)];
  }

  /**
   * Sets the caller's `imageId`. The handler does not await its patch, so a
   * missing user document surfaces no error; the patch simply finds nothing.
   */
  function UpdateUserImageOutcome(t: Tables, auth: Option<UserId>, imageId: StorageId): (o: Outcome<()>)
    ensures o.result == Ok(())
    ensures o.after.(users := t.users) == t
    ensures auth.None? || auth.value !in t.users ==> o.after == t
    ensures auth.Some? && auth.value in t.users ==>
      o.after.users == t.users[auth.value := t.users[auth.value].(imageId := Some(imageId))]
  {
    if auth.None? || auth.value !in t.users then Outcome(t, Ok(()))
    else
      var u := auth.value;
      Outcome(t.(users := t.users[u := t.users[u].(imageId := Some(imageId))]), Ok(()))
  }

  method UpdateUserImage(db: Db, auth: Option<UserId>, imageId: StorageId) returns (r: Result<()>)
    requires db.Valid()
    modifies db
    ensures db.Valid()
    ensures Outcome(db.State(), r) == UpdateUserImageOutcome(old(db.State()), auth, imageId)
  {
    r := Ok(());
    if auth.None? || auth.value !in db.users {
      return;
    }
    var userId := auth.value;
    db.users := db.users[userId := db.users[userId].(imageId := Some(imageId))];
  }

  /** Clears both the caller's `imageId` and `image` (a patch with `undefined` removes a field). */
  function RemoveUserImageOutcome(t: Tables, auth: Option<UserId>): (o: Outcome<()>)
    ensures o.result == Ok(())
    ensures o.after.(users := t.users) == t
    ensures auth.None? || auth.value !in t.users ==> o.after == t
    ensures auth.Some? && auth.value in t.users ==>
      && o.after.users == t.users[auth.value := t.users[auth.value].(imageId := None, image := None)]
      && AvatarUrl(o.after.users[auth.value], None) == None
  {
    if auth.None? || auth.value !in t.users then Outcome(t, Ok(()))
    else
      var u := auth.value;
      Outcome(t.(users := t.users[u := t.users[u].(imageId := None, image := None)]), Ok(()))
  }

  method RemoveUserImage(db: Db, auth: Option<UserId>) returns (r: Result<()>)
    requires db.Valid()
    modifies db
    ensures db.Valid()
    ensures Outcome(db.State(), r) == RemoveUserImageOutcome(old(db.State()), auth)
  {
    r := Ok(());
    if auth.None? || auth.value !in db.users {
      return;
    }
    var userId := auth.value;
    db.users := db.users[userId := db.users[userId].(imageId := None, image := None)];
  }

  // -----------------------------------------------------------------------
  // getActivePlans

  datatype ActivePlans = ActivePlans(free: PlanDoc, pro: PlanDoc)

  /**
   * The first free and the first pro plan; "Plan not found" unless both
   * exist, nothing when unauthenticated.
   */
  function GetActivePlans(t: Tables, auth: Option<UserId>): (r: Result<Option<ActivePlans>>)
    ensures auth.None? ==> r == Ok(None)
    ensures auth.Some? ==> (r.Err? <==> PlansWithKey(t.plans, Free) == {} || PlansWithKey(t.plans, Pro) == {})
    ensures r.Err? ==> r.error == PlanNotFound
    ensures auth.Some? && r.Ok? ==> r.value.Some?
    ensures r.Ok? && r.value.Some? ==>
      var ap := r.value.value;
      && ap.free.id in t.plans && t.plans[ap.free.id] == ap.free.plan && ap.free.plan.key == Free
      && ap.pro.id in t.plans && t.plans[ap.pro.id] == ap.pro.plan && ap.pro.plan.key == Pro
      && (forall k :: k in t.plans && t.plans[k].key == Free ==> ap.free.id <= k)
      && (forall k :: k in t.plans && t.plans[k].key == Pro ==> ap.pro.id <= k)
  {
    if auth.None? then Ok(None)
    else
      var free := First(PlansWithKey(t.plans, Free));
      var pro := First(PlansWithKey(t.plans, Pro));
      if free.None? || pro.None? then Err(PlanNotFound)
      else Ok(Some(ActivePlans(PlanDoc(free.value, t.plans[free.value]), PlanDoc(pro.value, t.plans[pro.value]))))
  }

  // -----------------------------------------------------------------------
  // deleteCurrentUserAccount

  /** The auth providers whose accounts are removed with the user. */
  const AuthProviders: seq<string> := ["resend-otp", "github"]

  /** The caller's auth accounts for the providers among `providers`. */
  function AccountsFor(accounts: map<AuthAccountId, AuthAccount>, u: UserId, providers: seq<string>): (ks: set<AuthAccountId>)
    ensures forall k :: k in ks <==> k in accounts && accounts[k].userId == u && accounts[k].provider in providers
  {
    set k | k in accounts && accounts[k].userId == u && accounts[k].provider in providers
  }

  /**
   * Removes the caller's subscription (and schedules the cancellation of its
   * Stripe subscriptions) when there is one, the user document, and the
   * caller's "resend-otp" and "github" auth accounts. It throws when the
   * user document is missing or when a `.unique()` lookup matches several
   * documents; nothing else is touched (the caller's apps stay).
   */
  function DeleteCurrentUserAccountOutcome(t: Tables, auth: Option<UserId>): (o: Outcome<()>)
    ensures auth.None? ==> o == Outcome(t, Ok(()))
    ensures auth.Some? && auth.value !in t.users ==> o == Outcome(t, Err(UserNotFound))
    ensures auth.Some? && auth.value in t.users && |SubscriptionsOfUser(t.subscriptions, auth.value)| > 1 ==>
      o == Outcome(t, Err(NotUnique))
    ensures o.result.Err? ==> o.after == t
    ensures o.result.Ok? ==> forall p :: p in AuthProviders ==> auth.None? || |AuthAccountsOf(t.authAccounts, auth.value, p)| <= 1
    ensures o.result.Ok? && auth.Some? ==>
      var u := auth.value;
      && o.after.users == t.users - {u}
      && o.after.subscriptions == t.subscriptions - SubscriptionsOfUser(t.subscriptions, u)
      && o.after.authAccounts == t.authAccounts - AccountsFor(t.authAccounts, u, AuthProviders)
      && o.after.scheduled ==
        (if SubscriptionsOfUser(t.subscriptions, u) == {} then t.scheduled
         else t.scheduled + [CancelCurrentUserSubscriptionsJob])
      && o.after.plans == t.plans && o.after.apps == t.apps && o.after.nextId == t.nextId
  {
    if auth.None? then Outcome(t, Ok(()))
    else
      var u := auth.value;
      if u !in t.users then Outcome(t, Err(UserNotFound))
      else
        var subs := SubscriptionsOfUser(t.subscriptions, u);
        if |subs| > 1 then Outcome(t, Err(NotUnique))
        else if |AuthAccountsOf(t.authAccounts, u, AuthProviders[0])| > 1
             || |AuthAccountsOf(t.authAccounts, u, AuthProviders[1])| > 1 then Outcome(t, Err(NotUnique))
        else
          Outcome(t.(
            subscriptions := t.subscriptions - subs,
            scheduled := if subs == {} then t.scheduled else t.scheduled + [CancelCurrentUserSubscriptionsJob],
            users := t.users - {u},
            authAccounts := t.authAccounts - AccountsFor(t.authAccounts, u, AuthProviders)), Ok(()))
  }

  /**
   * In a consistent store, deleting an existing user's account fails only
   * when one of the two providers has several accounts for that user.
   */
  lemma DeleteAccountFailsOnlyOnDuplicateAccounts(t: Tables, u: UserId)
    requires Consistent(t) && u in t.users
    ensures DeleteCurrentUserAccountOutcome(t, Some(u)).result.Ok?
      <==> forall p :: p in AuthProviders ==> |AuthAccountsOf(t.authAccounts, u, p)| <= 1
  {
    UserLookupNeverMany(t.subscriptions, u);
  }

  method DeleteCurrentUserAccount(db: Db, auth: Option<UserId>) returns (r: Result<()>)
    requires db.Valid()
    modifies db
    ensures db.Valid()
    ensures Outcome(db.State(), r) == DeleteCurrentUserAccountOutcome(old(db.State()), auth)
  {
    if auth.None? {
      return Ok(());
    }
    var userId := auth.value;
    if userId !in db.users {
      return Err(UserNotFound);
    }
    var before := db.State();
    var subs := SubscriptionsOfUser(db.subscriptions, userId);
    var lookup := Unique(subs);
    if lookup.Many? {
      return Err(NotUnique);
    }
    if lookup.One? {
      db.subscriptions := db.subscriptions - {lookup.key};
      db.scheduled := db.scheduled + [CancelCurrentUserSubscriptionsJob];
    }
    db.users := db.users - {userId};
    var removed := RemoveAuthAccounts(db, userId, before);
    if !removed {
      return Err(NotUnique);
    }
    RemovalKeepsConsistent(before, userId, subs);
    r := Ok(());
  }

  /**
   * The `asyncMap` over the providers: each step finds the user's account for
   * one provider with `.unique()` and deletes it. When a lookup throws, the
   * whole transaction is rolled back to `saved`.
   */
  method RemoveAuthAccounts(db: Db, userId: UserId, saved: Tables) returns (ok: bool)
    modifies db
    ensures ok <==> forall j :: 0 <= j < |AuthProviders| ==> |AuthAccountsOf(old(db.authAccounts), userId, AuthProviders[j])| <= 1
    ensures ok ==> db.State() == old(db.State()).(authAccounts := old(db.authAccounts) - AccountsFor(old(db.authAccounts), userId, AuthProviders))
    ensures !ok ==> db.State() == saved
  {
    ghost var start := db.State();
    var accounts0 := db.authAccounts;
    var i := 0;
    while i < |AuthProviders|
      invariant 0 <= i <= |AuthProviders|
      invariant db.State() == start.(authAccounts := accounts0 - AccountsFor(accounts0, userId, AuthProviders[..i]))
      invariant forall j :: 0 <= j < i ==> |AuthAccountsOf(accounts0, userId, AuthProviders[j])| <= 1
    {
      var provider := AuthProviders[i];
      AccountsOfRemaining(accounts0, userId, AuthProviders, i);
      var account := Unique(AuthAccountsOf(db.authAccounts, userId, provider));
      if account.Many? {
        db.Rollback(saved);
        return false;
      }
      if account.One? {
        db.authAccounts := db.authAccounts - {account.key};
      }
      i := i + 1;
    }
    assert AuthProviders[..i] == AuthProviders;
    ok := true;
  }

  /**
   * Before the `i`-th provider is visited, the accounts still in the table for
   * it are all of the user's accounts for it, and removing them completes the
   * removal of the first `i + 1` providers' accounts.
   */
  lemma AccountsOfRemaining(accounts: map<AuthAccountId, AuthAccount>, u: UserId, providers: seq<string>, i: nat)
    requires i < |providers| && providers == AuthProviders
    ensures AuthAccountsOf(accounts - AccountsFor(accounts, u, providers[..i]), u, providers[i])
      == AuthAccountsOf(accounts, u, providers[i])
    ensures accounts - AccountsFor(accounts, u, providers[..i]) - AuthAccountsOf(accounts, u, providers[i])
      == accounts - AccountsFor(accounts, u, providers[..i + 1])
  {
    assert providers[..i + 1] == providers[..i] + [providers[i]];
    assert providers[i] !in providers[..i];
  }

  /** Removing documents keeps a consistent store consistent. */
  lemma RemovalKeepsConsistent(before: Tables, u: UserId, subs: set<SubscriptionId>)
    requires Consistent(before)
    ensures Consistent(before.(
        subscriptions := before.subscriptions - subs,
        users := before.users - {u},
        authAccounts := before.authAccounts - AccountsFor(before.authAccounts, u, AuthProviders)))
  {
  }

  // -----------------------------------------------------------------------
  // Apps

  /** The caller's apps; none when unauthenticated. */
  function GetUserApps(t: Tables, auth: Option<UserId>): (r: map<AppId, App>)
    ensures auth.None? ==> r == map[]
    ensures auth.Some? ==> forall k :: k in r <==> k in t.apps && t.apps[k].userId == auth.value
    ensures forall k :: k in r ==> k in t.apps && r[k] == t.apps[k]
  {
    if auth.None? then map[]
    else map k | k in t.apps && t.apps[k].userId == auth.value :: t.apps[k]
  }

  /**
   * The generated key: `sk_` followed by two strings drawn from
   * `Math.random().toString(36).substring(2, 15)`.
   */
  function ApiKey(random1: string, random2: string): (key: string)
    ensures |key| == 3 + |random1| + |random2|
    ensures key[..3] == "sk_" && key[3..] == random1 + random2
  {
    "sk_" + random1 + random2
  }

  /**
   * A new active app owned by the caller, with both timestamps `now` and a
   * fresh `sk_` key; "User not found" when unauthenticated.
   */
  function CreateAppOutcome(t: Tables, auth: Option<UserId>, name: string, description: Option<string>,
                            random1: string, random2: string, now: int): (o: Outcome<AppId>)
    ensures o.result.Err? <==> auth.None?
    ensures o.result.Err? ==> o == Outcome(t, Err(UserNotFound))
    ensures o.result.Ok? ==>
      var id := o.result.value;
      && id == t.nextId && id in o.after.apps
      && o.after == t.(apps := t.apps[id := o.after.apps[id]], nextId := t.nextId + 1)
      && o.after.apps[id].userId == auth.value
      && o.after.apps[id].name == name && o.after.apps[id].description == description
      && o.after.apps[id].status == Active
      && o.after.apps[id].createdAt == now == o.after.apps[id].updatedAt
      && o.after.apps[id].apiKey == ApiKey(random1, random2)
    ensures Consistent(t) && o.result.Ok? ==> o.result.value !in t.apps && Consistent(o.after)
  {
    if auth.None? then Outcome(t, Err(UserNotFound))
    else
      var app := App(auth.value, name, description, ApiKey(random1, random2), Active, now, now);
      Outcome(t.(apps := t.apps[t.nextId := app], nextId := t.nextId + 1), Ok(t.nextId))
  }

  method CreateApp(db: Db, auth: Option<UserId>, name: string, description: Option<string>,
                   random1: string, random2: string, now: int) returns (r: Result<AppId>)
    requires db.Valid()
    modifies db
    ensures db.Valid()
    ensures Outcome(db.State(), r) == CreateAppOutcome(old(db.State()), auth, name, description, random1, random2, now)
  {
    if auth.None? {
      return Err(UserNotFound);
    }
    var apiKey := ApiKey(random1, random2);
    var appId := db.nextId;
    db.apps := db.apps[appId := App(auth.value, name, description, apiKey, Active, now, now)];
    db.nextId := appId + 1;
    r := Ok(appId);
  }

  /** The caller owns an existing app. */
  predicate OwnsApp(t: Tables, auth: Option<UserId>, appId: AppId) {
    auth.Some? && appId in t.apps && t.apps[appId].userId == auth.value
  }

  /**
   * The ownership guard shared by updateApp, deleteApp and regenerateApiKey:
   * "User not found" when unauthenticated, "App not found or unauthorized"
   * for a missing app or one owned by someone else.
   */
  function AppGuard(t: Tables, auth: Option<UserId>, appId: AppId): (r: Option<Error>)
    ensures r.None? <==> OwnsApp(t, auth, appId)
    ensures auth.None? ==> r == Some(UserNotFound)
    ensures auth.Some? && r.Some? ==> r == Some(AppNotFoundOrUnauthorized)
  {
    if auth.None? then Some(UserNotFound)
    else if appId !in t.apps || t.apps[appId].userId != auth.value then Some(AppNotFoundOrUnauthorized)
    else None
  }

  /** The document `updateApp` writes: each supplied field, and `updatedAt`. */
  function PatchApp(app: App, name: Option<string>, description: Option<string>, status: Option<AppStatus>, now: int): (a: App)
    ensures a.userId == app.userId && a.apiKey == app.apiKey && a.createdAt == app.createdAt
    ensures a.updatedAt == now
    ensures a.name == if name.Some? then name.value else app.name
    ensures a.description == if description.Some? then description else app.description
    ensures a.status == if status.Some? then status.value else app.status
  {
    app.(
      name := if name.Some? then name.value else app.name,
      description := if description.Some? then description else app.description,
      status := if status.Some? then status.value else app.status,
      updatedAt := now)
  }

  function UpdateAppOutcome(t: Tables, auth: Option<UserId>, appId: AppId, name: Option<string>,
                            description: Option<string>, status: Option<AppStatus>, now: int): (o: Outcome<()>)
    ensures o.result.Ok? <==> OwnsApp(t, auth, appId)
    ensures o.result.Err? ==> o == Outcome(t, Err(AppGuard(t, auth, appId).value))
    ensures o.result.Ok? ==> o.after == t.(apps := t.apps[appId := PatchApp(t.apps[appId], name, description, status, now)])
  {
    var guard := AppGuard(t, auth, appId);
    if guard.Some? then Outcome(t, Err(guard.value))
    else Outcome(t.(apps := t.apps[appId := PatchApp(t.apps[appId], name, description, status, now)]), Ok(()))
  }

  method UpdateApp(db: Db, auth: Option<UserId>, appId: AppId, name: Option<string>,
                   description: Option<string>, status: Option<AppStatus>, now: int) returns (r: Result<()>)
    requires db.Valid()
    modifies db
    ensures db.Valid()
    ensures Outcome(db.State(), r) == UpdateAppOutcome(old(db.State()), auth, appId, name, description, status, now)
  {
    var guard := AppGuard(db.State(), auth, appId);
    if guard.Some? {
      return Err(guard.value);
    }
    db.apps := db.apps[appId := PatchApp(db.apps[appId], name, description, status, now)];
    r := Ok(());
  }

  function DeleteAppOutcome(t: Tables, auth: Option<UserId>, appId: AppId): (o: Outcome<()>)
    ensures o.result.Ok? <==> OwnsApp(t, auth, appId)
    ensures o.result.Err? ==> o == Outcome(t, Err(AppGuard(t, auth, appId).value))
    ensures o.result.Ok? ==> o.after == t.(apps := t.apps - {appId}) && appId !in o.after.apps
  {
    var guard := AppGuard(t, auth, appId);
    if guard.Some? then Outcome(t, Err(guard.value))
    else Outcome(t.(apps := t.apps - {appId}), Ok(()))
  }

  method DeleteApp(db: Db, auth: Option<UserId>, appId: AppId) returns (r: Result<()>)
    requires db.Valid()
    modifies db
    ensures db.Valid()
    ensures Outcome(db.State(), r) == DeleteAppOutcome(old(db.State()), auth, appId)
  {
    var guard := AppGuard(db.State(), auth, appId);
    if guard.Some? {
      return Err(guard.value);
    }
    db.apps := db.apps - {appId};
    r := Ok(());
  }

  /** A new `sk_` key and `updatedAt` on the caller's app; every other field stays. */
  function RegenerateApiKeyOutcome(t: Tables, auth: Option<UserId>, appId: AppId,
                                   random1: string, random2: string, now: int): (o: Outcome<string>)
    ensures o.result.Ok? <==> OwnsApp(t, auth, appId)
    ensures o.result.Err? ==> o == Outcome(t, Err(AppGuard(t, auth, appId).value))
    ensures o.result.Ok? ==>
      && o.result.value == ApiKey(random1, random2)
      && o.after == t.(apps := t.apps[appId := t.apps[appId].(apiKey := o.result.value, updatedAt := now)])
  {
    var guard := AppGuard(t, auth, appId);
    if guard.Some? then Outcome(t, Err(guard.value))
    else
      var key := ApiKey(random1, random2);
      Outcome(t.(apps := t.apps[appId := t.apps[appId].(apiKey := key, updatedAt := now)]), Ok(key))
  }

  method RegenerateApiKey(db: Db, auth: Option<UserId>, appId: AppId,
                          random1: string, random2: string, now: int) returns (r: Result<string>)
    requires db.Valid()
    modifies db
    ensures db.Valid()
    ensures Outcome(db.State(), r) == RegenerateApiKeyOutcome(old(db.State()), auth, appId, random1, random2, now)
  {
    var guard := AppGuard(db.State(), auth, appId);
    if guard.Some? {
      return Err(guard.value);
    }
    var newApiKey := ApiKey(random1, random2);
    db.apps := db.apps[appId := db.apps[appId].(apiKey := newApiKey, updatedAt := now)];
    r := Ok(newApiKey);
  }

  /** Only the owner of an app can change, delete or re-key it: for anyone else the store stays as it was. */
  lemma OnlyOwnerChangesApp(t: Tables, auth: Option<UserId>, appId: AppId, name: Option<string>,
                            description: Option<string>, status: Option<AppStatus>,
                            random1: string, random2: string, now: int)
    requires !OwnsApp(t, auth, appId)
    ensures UpdateAppOutcome(t, auth, appId, name, description, status, now).after == t
    ensures DeleteAppOutcome(t, auth, appId).after == t
    ensures RegenerateApiKeyOutcome(t, auth, appId, random1, random2, now).after == t
  {
  }
}
