/**
 * The document store the handlers run against: one map per table, a counter
 * that hands out fresh document ids in creation order, and the log of calls
 * handed to the scheduler. Index queries are modelled by the set of ids they
 * match; `.unique()` and `.first()` pick from that set.
 */
module Store {
  import opened Wrappers
  import opened Schema

  /** A value snapshot of the store: every table, the scheduler's log and the id counter. */
  datatype Tables = Tables(
    users: map<UserId, User>,
    plans: map<PlanId, Plan>,
    subscriptions: map<SubscriptionId, Subscription>,
    apps: map<AppId, App>,
    authAccounts: map<AuthAccountId, AuthAccount>,
    scheduled: seq<Job>,
    nextId: nat)

  /** At most one subscription per user: the invariant the `userId` lookups rely on. */
  ghost predicate OneSubscriptionPerUser(subs: map<SubscriptionId, Subscription>) {
    forall j, k :: j in subs && k in subs && subs[j].userId == subs[k].userId ==> j == k
  }

  /** Every id in use is below `nextId`, and no user has two subscriptions. */
  ghost predicate Consistent(t: Tables) {
    && (forall k :: k in t.users ==> k < t.nextId)
    && (forall k :: k in t.plans ==> k < t.nextId)
    && (forall k :: k in t.subscriptions ==> k < t.nextId)
    && (forall k :: k in t.apps ==> k < t.nextId)
    && (forall k :: k in t.authAccounts ==> k < t.nextId)
    && OneSubscriptionPerUser(t.subscriptions)
  }

  /** What a handler leaves behind: the store afterwards and its result. */
  datatype Outcome<+T> = Outcome(after: Tables, result: Result<T>)

  /** A plan document together with its id. */
  datatype PlanDoc = PlanDoc(id: PlanId, plan: Plan)

  class Db {
    var users: map<UserId, User>
    var plans: map<PlanId, Plan>
    var subscriptions: map<SubscriptionId, Subscription>
    var apps: map<AppId, App>
    var authAccounts: map<AuthAccountId, AuthAccount>
    var scheduled: seq<Job>
    var nextId: nat

    ghost predicate Valid()
      reads this
    {
      Consistent(State())
    }

    function State(): Tables
      reads this
    {
      Tables(users, plans, subscriptions, apps, authAccounts, scheduled, nextId)
    }

    constructor ()
      ensures Valid()
      ensures State() == Tables(map[], map[], map[], map[], map[], [], 0)
    {
      users, plans, subscriptions, apps, authAccounts := map[], map[], map[], map[], map[];
      scheduled, nextId := [], 0;
    }

    /** Aborting a mutation's transaction: every write it made is undone. */
    method Rollback(saved: Tables)
      modifies this
      ensures State() == saved
    {
      users, plans, subscriptions, apps, authAccounts := saved.users, saved.plans, saved.subscriptions, saved.apps, saved.authAccounts;
      scheduled, nextId := saved.scheduled, saved.nextId;
    }
  }

  // -----------------------------------------------------------------------
  // `.unique()` and `.first()`

  /** What `.unique()` sees: no match (null), one match, or several (it throws). */
  datatype Lookup = NoMatch | One(key: nat) | Many

  /** The least id of a non-empty set: the earliest-created document among the matches. */
  function Least(ks: set<nat>): (k: nat)
    requires ks != {}
    ensures k in ks && forall j :: j in ks ==> k <= j
  {
    LeastExists(ks);
    var k :| k in ks && forall j :: j in ks ==> k <= j; k
  }

  lemma LeastExists(ks: set<nat>)
    requires ks != {}
    ensures exists k :: k in ks && forall j :: j in ks ==> k <= j
  {
    var x :| x in ks;
    LeastBelow(ks, x);
  }

  /** Descending from any member, a least member is reached. */
  lemma LeastBelow(ks: set<nat>, n: nat)
    requires n in ks
    ensures exists k :: k in ks && forall j :: j in ks ==> k <= j
    decreases n
  {
    if exists j :: j in ks && j < n {
      var j :| j in ks && j < n;
      LeastBelow(ks, j);
    } else {
      assert forall j :: j in ks ==> n <= j;
    }
  }

  /** `.unique()` over the documents an index query matches. */
  function Unique(ks: set<nat>): (r: Lookup)
    ensures r.NoMatch? <==> ks == {}
    ensures r.One? <==> |ks| == 1
    ensures r.One? ==> ks == {r.key}
    ensures r.Many? <==> |ks| > 1
  {
    if ks == {} then NoMatch
    else if |ks| == 1 then
      var k := Least(ks);
      assert |ks - {k}| == 0;
      One(k)
    else Many
  }

  /** `.first()` over the documents an index query matches, in creation order. */
  function First(ks: set<nat>): (r: Option<nat>)
    ensures r.None? <==> ks == {}
    ensures r.Some? ==> r.value in ks && forall j :: j in ks ==> r.value <= j
  {
    if ks == {} then None else Some(Least(ks))
  }

  // -----------------------------------------------------------------------
  // Index queries: the ids whose document has the given index field

  function SubscriptionsOfUser(subs: map<SubscriptionId, Subscription>, u: UserId): (ks: set<SubscriptionId>)
    ensures forall k :: k in ks <==> k in subs && subs[k].userId == u
  {
    set k | k in subs && subs[k].userId == u
  }

  function SubscriptionsWithStripeId(subs: map<SubscriptionId, Subscription>, stripeId: string): (ks: set<SubscriptionId>)
    ensures forall k :: k in ks <==> k in subs && subs[k].stripeId == stripeId
  {
    set k | k in subs && subs[k].stripeId == stripeId
  }

  function PlansWithKey(plans: map<PlanId, Plan>, key: PlanKey): (ks: set<PlanId>)
    ensures forall k :: k in ks <==> k in plans && plans[k].key == key
  {
    set k | k in plans && plans[k].key == key
  }

  function PlansWithStripeId(plans: map<PlanId, Plan>, stripeId: string): (ks: set<PlanId>)
    ensures forall k :: k in ks <==> k in plans && plans[k].stripeId == stripeId
  {
    set k | k in plans && plans[k].stripeId == stripeId
  }

  function UsersWithCustomerId(users: map<UserId, User>, customerId: string): (ks: set<UserId>)
    ensures forall k :: k in ks <==> k in users && users[k].customerId == Some(customerId)
  {
    set k | k in users && users[k].customerId == Some(customerId)
  }

  function AuthAccountsOf(accounts: map<AuthAccountId, AuthAccount>, u: UserId, provider: string): (ks: set<AuthAccountId>)
    ensures forall k :: k in ks <==> k in accounts && accounts[k].userId == u && accounts[k].provider == provider
  {
    set k | k in accounts && accounts[k].userId == u && accounts[k].provider == provider
  }

  /** Under the one-subscription-per-user invariant the `userId` lookup never throws. */
  lemma UserLookupNeverMany(subs: map<SubscriptionId, Subscription>, u: UserId)
    requires OneSubscriptionPerUser(subs)
    ensures |SubscriptionsOfUser(subs, u)| <= 1
    ensures !Unique(SubscriptionsOfUser(subs, u)).Many?
  {
    var ks := SubscriptionsOfUser(subs, u);
    if ks != {} {
      var k :| k in ks;
      assert ks == {k};
    }
  }
}
