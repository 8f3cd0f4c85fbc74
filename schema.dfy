/**
 * The tables of the document store and the enumerations their fields range
 * over (convex/schema.ts). Document ids are natural numbers; `v.number()`
 * fields (amounts, timestamps) are integers.
 */
module Schema {
  import opened Wrappers

  type UserId = nat
  type PlanId = nat
  type SubscriptionId = nat
  type AppId = nat
  type AuthAccountId = nat
  type StorageId = nat

  // ---------------------------------------------------------------------
  // Enumerations

  datatype Currency = Usd | Eur | Vnd

  /** The literal each currency is stored as. */
  function CurrencyName(c: Currency): string {
    match c
    case Usd => "usd"
    case Eur => "eur"
    case Vnd => "vnd"
  }

  /** The currency validator: accepts exactly the three literals. */
  function ParseCurrency(s: string): (r: Option<Currency>)
    ensures r.Some? ==> CurrencyName(r.value) == s
    ensures r.None? ==> forall c: Currency :: CurrencyName(c) != s
  {
    if s == "usd" then Some(Usd)
    else if s == "eur" then Some(Eur)
    else if s == "vnd" then Some(Vnd)
    else None
  }

  datatype Interval = Month | Year

  function IntervalName(i: Interval): string {
    match i
    case Month => "month"
    case Year => "year"
  }

  /** The interval validator: accepts exactly "month" and "year". */
  function ParseInterval(s: string): (r: Option<Interval>)
    ensures r.Some? ==> IntervalName(r.value) == s
    ensures r.None? ==> forall i: Interval :: IntervalName(i) != s
  {
    if s == "month" then Some(Month)
    else if s == "year" then Some(Year)
    else None
  }

  datatype PlanKey = Free | Pro | Business

  function PlanKeyName(k: PlanKey): string {
    match k
    case Free => "free"
    case Pro => "pro"
    case Business => "business"
  }

  /** The plan key validator: accepts exactly "free", "pro" and "business". */
  function ParsePlanKey(s: string): (r: Option<PlanKey>)
    ensures r.Some? ==> PlanKeyName(r.value) == s
    ensures r.None? ==> forall k: PlanKey :: PlanKeyName(k) != s
  {
    if s == "free" then Some(Free)
    else if s == "pro" then Some(Pro)
    else if s == "business" then Some(Business)
    else None
  }

  /** Each enumeration value is stored as its literal and read back as itself. */
  lemma EnumNamesRoundTrip(c: Currency, i: Interval, k: PlanKey)
    ensures ParseCurrency(CurrencyName(c)) == Some(c)
    ensures ParseInterval(IntervalName(i)) == Some(i)
    ensures ParsePlanKey(PlanKeyName(k)) == Some(k)
  {
  }

  /** The literals are pairwise distinct, so the enumerations have exactly three, two and three values. */
  lemma EnumNamesDistinct(c1: Currency, c2: Currency, i1: Interval, i2: Interval, k1: PlanKey, k2: PlanKey)
    ensures CurrencyName(c1) == CurrencyName(c2) ==> c1 == c2
    ensures IntervalName(i1) == IntervalName(i2) ==> i1 == i2
    ensures PlanKeyName(k1) == PlanKeyName(k2) ==> k1 == k2
  {
  }

  /** The `status` field of an app: one of two literals. */
  datatype AppStatus = Active | Inactive

  // ---------------------------------------------------------------------
  // Prices

  datatype Price = Price(stripeId: string, amount: int)

  /** One optional price per currency. */
  datatype Prices = Prices(usd: Option<Price>, eur: Option<Price>, vnd: Option<Price>) {

    function Get(c: Currency): Option<Price> {
      match c
      case Usd => usd
      case Eur => eur
      case Vnd => vnd
    }

    /** Sets the entry of one currency; the other entries keep their value. */
    function Set(c: Currency, p: Option<Price>): (r: Prices)
      ensures r.Get(c) == p
      ensures forall c' :: c' != c ==> r.Get(c') == Get(c')
    {
      match c
      case Usd => this.(usd := p)
      case Eur => this.(eur := p)
      case Vnd => this.(vnd := p)
    }
  }

  const NoPrices := Prices(None, None, None)

  /** A plan's prices: always a month and a year entry, each keyed by currency. */
  datatype PriceMatrix = PriceMatrix(month: Prices, year: Prices) {

    function Get(i: Interval, c: Currency): Option<Price> {
      match i
      case Month => month.Get(c)
      case Year => year.Get(c)
    }

    /** Sets one (interval, currency) cell; every other cell keeps its value. */
    function Set(i: Interval, c: Currency, p: Price): (r: PriceMatrix)
      ensures r.Get(i, c) == Some(p)
      ensures forall i', c' :: (i', c') != (i, c) ==> r.Get(i', c') == Get(i', c')
    {
      match i
      case Month => this.(month := month.Set(c, Some(p)))
      case Year => this.(year := year.Set(c, Some(p)))
    }
  }

  /** `{ month: {}, year: {} }`: no cell holds a price. */
  const EmptyMatrix := PriceMatrix(NoPrices, NoPrices)

  // ---------------------------------------------------------------------
  // Documents

  datatype User = User(
    name: Option<string>,
    username: Option<string>,
    imageId: Option<StorageId>,
    image: Option<string>,
    email: Option<string>,
    emailVerificationTime: Option<int>,
    phone: Option<string>,
    phoneVerificationTime: Option<int>,
    isAnonymous: Option<bool>,
    customerId: Option<string>)

  /**
   * JavaScript truthiness of `user.customerId`: an absent customer id and the
   * empty string both count as no customer.
   */
  function HasCustomer(u: User): (r: bool)
    ensures u.customerId.None? || u.customerId == Some("") ==> !r
    ensures u.customerId.Some? && u.customerId.value != "" ==> r
  {
    u.customerId.Some? && u.customerId.value != ""
  }

  datatype Plan = Plan(
    key: PlanKey,
    stripeId: string,
    name: string,
    description: string,
    prices: PriceMatrix)

  datatype Subscription = Subscription(
    userId: UserId,
    planId: PlanId,
    priceStripeId: string,
    stripeId: string,
    currency: Currency,
    interval: Interval,
    status: string,
    currentPeriodStart: int,
    currentPeriodEnd: int,
    cancelAtPeriodEnd: bool)

  datatype App = App(
    userId: UserId,
    name: string,
    description: Option<string>,
    apiKey: string,
    status: AppStatus,
    createdAt: int,
    updatedAt: int)

  /** The part of an `authAccounts` document (from the auth library's tables) the handlers use. */
  datatype AuthAccount = AuthAccount(userId: UserId, provider: string)

  /** A function call handed to the scheduler. */
  datatype Job =
    | CreateStripeCustomerJob(currency: Currency, userId: UserId)
    | CancelCurrentUserSubscriptionsJob
}
