/**
 * The pure part of syncing the billing provider's catalogue into the `plans`
 * table (convex/stripe.ts, syncStripeProductsToConvex): the recurring prices
 * of a product, the month x currency price matrix built from them, the plan
 * key read off the product name, and the upsert each product turns into.
 * The handlers that perform the writes are in module Stripe.
 */
module Catalog {
  import opened Wrappers
  import opened Schema
  import opened Store

  /** A product as `products.list` returns it. */
  datatype StripeProduct = StripeProduct(id: string, name: string, description: Option<string>)

  /**
   * A price as `prices.list` returns it: `recurringInterval` is
   * `recurring?.interval` (None for a one-time price), `unitAmount` may be null.
   */
  datatype StripePrice = StripePrice(
    id: string,
    product: string,
    recurringInterval: Option<string>,
    currency: string,
    unitAmount: Option<int>)

  /**
   * The `priceMap` object being filled: the cells the schema knows, and
   * whether some price put a currency key the schema does not know (writing
   * such an object fails validation).
   */
  datatype PriceMap = PriceMap(matrix: PriceMatrix, foreignCurrency: bool)

  const EmptyPriceMap := PriceMap(EmptyMatrix, false)

  // -----------------------------------------------------------------------
  // Recurring prices of a product

  predicate IsRecurringPriceOf(p: StripePrice, productId: string) {
    p.product == productId && p.recurringInterval.Some?
  }

  /** `prices.filter(p => p.product === product.id && p.recurring)`, order kept. */
  function RecurringPricesOf(prices: seq<StripePrice>, productId: string): (r: seq<StripePrice>)
    ensures |r| <= |prices|
    ensures forall p :: p in r <==> p in prices && IsRecurringPriceOf(p, productId)
    ensures |prices| == 1 ==> r == if IsRecurringPriceOf(prices[0], productId) then prices else []
  {
    if prices == [] then []
    else if IsRecurringPriceOf(prices[0], productId) then [prices[0]] + RecurringPricesOf(prices[1..], productId)
    else RecurringPricesOf(prices[1..], productId)
  }

  /**
   * The filter keeps the listing's order: filtering a concatenation is
   * concatenating the filtered parts. With the single-price case above this
   * determines the filter on every listing.
   */
  lemma {:induction false} RecurringPricesOfAppend(a: seq<StripePrice>, b: seq<StripePrice>, productId: string)
    ensures RecurringPricesOf(a + b, productId) == RecurringPricesOf(a, productId) + RecurringPricesOf(b, productId)
    decreases |a|
  {
    if a == [] {
      assert a + b == b;
    } else {
      assert (a + b)[0] == a[0] && (a + b)[1..] == a[1..] + b;
      RecurringPricesOfAppend(a[1..], b, productId);
    }
  }

  // -----------------------------------------------------------------------
  // Filling the price matrix

  /** `price.unit_amount ?? 0`: a present amount is kept, even 0; a null one reads as 0. */
  function AmountOf(p: StripePrice): (r: int)
    ensures p.unitAmount.Some? ==> r == p.unitAmount.value
    ensures p.unitAmount.None? ==> r == 0
  {
    if p.unitAmount.Some? then p.unitAmount.value else 0
  }

  /** A price lands in the (interval, currency) cell when its interval and currency are exactly those. */
  predicate LandsIn(p: StripePrice, i: Interval, c: Currency) {
    p.recurringInterval == Some(IntervalName(i)) && p.currency == CurrencyName(c)
  }

  /**
   * One iteration of the fill loop, `priceMap[interval][currency] = {...}`:
   * an interval other than month or year has no sub-object, so the
   * assignment throws; an unknown currency adds a key the schema rejects.
   */
  function FillOne(pm: PriceMap, p: StripePrice): (r: Result<PriceMap>)
    ensures r.Err? <==> p.recurringInterval.None? || ParseInterval(p.recurringInterval.value).None?
    ensures r.Err? ==> r.error == UnsupportedInterval
  {
    if p.recurringInterval.None? then Err(UnsupportedInterval)
    else match ParseInterval(p.recurringInterval.value)
      case None => Err(UnsupportedInterval)
      case Some(i) =>
        match ParseCurrency(p.currency)
        case None => Ok(pm.(foreignCurrency := true))
        case Some(c) => Ok(pm.(matrix := pm.matrix.Set(i, c, Price(p.id, AmountOf(p)))))
  }

  /**
   * The fill loop run over `ps`, starting from `pm`: stops at the first
   * throwing iteration, which is always the interval TypeError; a foreign
   * currency, once recorded, stays recorded.
   */
  function Fill(pm: PriceMap, ps: seq<StripePrice>): (r: Result<PriceMap>)
    ensures r.Err? ==> r.error == UnsupportedInterval
    ensures r.Ok? && pm.foreignCurrency ==> r.value.foreignCurrency
    decreases |ps|
  {
    if ps == [] then Ok(pm)
    else match FillOne(pm, ps[0])
      case Err(e) => Err(e)
      case Ok(pm') => Fill(pm', ps[1..])
  }

  /** The last price of `ps` that lands in the cell, if any. */
  function LastIn(ps: seq<StripePrice>, i: Interval, c: Currency): (r: Option<StripePrice>)
    ensures r.Some? ==> r.value in ps && LandsIn(r.value, i, c)
    ensures r.None? ==> forall p :: p in ps ==> !LandsIn(p, i, c)
    ensures r.Some? ==> exists k :: 0 <= k < |ps| && ps[k] == r.value && forall j :: k < j < |ps| ==> !LandsIn(ps[j], i, c)
  {
    if ps == [] then None
    else
      var later := LastIn(ps[1..], i, c);
      if later.Some? then
        var k :| 0 <= k < |ps[1..]| && ps[1..][k] == later.value && forall j :: k < j < |ps[1..]| ==> !LandsIn(ps[1..][j], i, c);
        assert ps[k + 1] == later.value && forall j :: k + 1 < j < |ps| ==> !LandsIn(ps[j], i, c) by {
          forall j | k + 1 < j < |ps| ensures !LandsIn(ps[j], i, c) { assert ps[j] == ps[1..][j - 1]; }
        }
        later
      else if LandsIn(ps[0], i, c) then
        assert forall j :: 0 < j < |ps| ==> !LandsIn(ps[j], i, c) by {
          forall j | 0 < j < |ps| ensures !LandsIn(ps[j], i, c) { assert ps[j] in ps[1..]; }
        }
        Some(ps[0])
      else None
  }

  /** The priceMap loop, filling the matrix in place (convex/stripe.ts:466-479). */
  method BuildPriceMap(productPrices: seq<StripePrice>) returns (r: Result<PriceMap>)
    ensures r == Fill(EmptyPriceMap, productPrices)
  {
    var pm := EmptyPriceMap;
    var k := 0;
    while k < |productPrices|
      invariant 0 <= k <= |productPrices|
      invariant Fill(EmptyPriceMap, productPrices) == Fill(pm, productPrices[k..])
    {
      var price := productPrices[k];
      assert productPrices[k..][0] == price && productPrices[k..][1..] == productPrices[k + 1..];
      if price.recurringInterval.None? {
        return Err(UnsupportedInterval);
      }
      var interval := ParseInterval(price.recurringInterval.value);
      if interval.None? {
        return Err(UnsupportedInterval);
      }
      var currency := ParseCurrency(price.currency);
      if currency.None? {
        pm := pm.(foreignCurrency := true);
      } else {
        pm := pm.(matrix := pm.matrix.Set(interval.value, currency.value, Price(price.id, AmountOf(price))));
      }
      k := k + 1;
    }
    assert productPrices[k..] == [];
    r := Ok(pm);
  }

  /** The fill throws exactly when some price lacks a month or year interval. */
  lemma {:induction false} FillFailsIffBadInterval(pm: PriceMap, ps: seq<StripePrice>)
    ensures Fill(pm, ps).Err? <==>
      exists p :: p in ps && (p.recurringInterval.None? || ParseInterval(p.recurringInterval.value).None?)
    ensures Fill(pm, ps).Err? ==> Fill(pm, ps).error == UnsupportedInterval
    decreases |ps|
  {
    if ps != [] {
      assert ps[0] in ps;
      match FillOne(pm, ps[0])
      case Err(_) =>
      case Ok(pm') =>
        FillFailsIffBadInterval(pm', ps[1..]);
        assert forall p :: p in ps <==> p == ps[0] || p in ps[1..];
    }
  }

  /**
   * Each cell ends up holding the id and amount (0 for a null amount) of the
   * last price that lands in it; a cell no price lands in keeps its value.
   */
  lemma {:induction false} FillCell(pm: PriceMap, ps: seq<StripePrice>, i: Interval, c: Currency)
    requires Fill(pm, ps).Ok?
    ensures Fill(pm, ps).value.matrix.Get(i, c) ==
      match LastIn(ps, i, c)
      case Some(p) => Some(Price(p.id, AmountOf(p)))
      case None => pm.matrix.Get(i, c)
    decreases |ps|
  {
    if ps != [] {
      var pm' := FillOne(pm, ps[0]).value;
      FillCell(pm', ps[1..], i, c);
    }
  }

  /** The fill records a foreign currency exactly when some price has a currency outside the schema. */
  lemma {:induction false} FillForeign(pm: PriceMap, ps: seq<StripePrice>)
    requires Fill(pm, ps).Ok?
    ensures Fill(pm, ps).value.foreignCurrency <==>
      pm.foreignCurrency || exists p :: p in ps && ParseCurrency(p.currency).None?
    decreases |ps|
  {
    if ps != [] {
      var pm' := FillOne(pm, ps[0]).value;
      FillForeign(pm', ps[1..]);
      assert ps[0] in ps;
      assert forall p :: p in ps <==> p == ps[0] || p in ps[1..];
    }
  }

  // -----------------------------------------------------------------------
  // Plan key from the product name

  /** `toLowerCase` on the ASCII letters. */
  function LowerChar(ch: char): (r: char)
    ensures !('A' <= r <= 'Z')
    ensures 'A' <= ch <= 'Z' ==> r as int == ch as int + 32
    ensures !('A' <= ch <= 'Z') ==> r == ch
  {
    if 'A' <= ch <= 'Z' then (ch as int + 32) as char else ch
  }

  function ToLower(s: string): (r: string)
    ensures |r| == |s|
    ensures forall k :: 0 <= k < |s| ==> r[k] == LowerChar(s[k])
  {
    if s == [] then [] else [LowerChar(s[0])] + ToLower(s[1..])
  }

  /** `sub` occurs in `s` starting at index `k`. */
  predicate OccursAt(s: string, sub: string, k: nat) {
    k + |sub| <= |s| && s[k..k + |sub|] == sub
  }

  /** `s.includes(sub)`: the empty string is included in every string, and nothing longer than `s` is. */
  function Contains(s: string, sub: string): (b: bool)
    ensures sub == [] ==> b
    ensures b ==> |sub| <= |s|
  {
    assert sub == [] ==> OccursAt(s, sub, 0);
    exists k: nat :: k <= |s| && OccursAt(s, sub, k)
  }

  /** A string that lacks the first character of `sub` does not include `sub`. */
  lemma FirstCharMissing(s: string, sub: string)
    requires sub != [] && sub[0] !in s
    ensures !Contains(s, sub)
  {
  }

  /** `"pro"` in the lower-cased name wins over `"free"`; anything else is business. */
  function ClassifyKey(name: string): (r: PlanKey)
    ensures r == Pro <==> Contains(ToLower(name), "pro")
    ensures r == Free <==> !Contains(ToLower(name), "pro") && Contains(ToLower(name), "free")
  {
    var lower := ToLower(name);
    if Contains(lower, "pro") then Pro
    else if Contains(lower, "free") then Free
    else Business
  }

  lemma ToLowerIdempotent(s: string)
    ensures ToLower(ToLower(s)) == ToLower(s)
  {
    assert forall k :: 0 <= k < |s| ==> ToLower(ToLower(s))[k] == ToLower(s)[k];
  }

  /** The classification ignores letter case. */
  lemma ClassifyIgnoresCase(name: string)
    ensures ClassifyKey(ToLower(name)) == ClassifyKey(name)
  {
    ToLowerIdempotent(name);
  }

  /** Names as the catalogue typically has them, including one that contains both words. */
  lemma ClassifyFree()
    ensures ClassifyKey("Free") == Free
  {
    assert ToLower("Free") == "free";
    FirstCharMissing("free", "pro");
    assert OccursAt("free", "free", 0);
  }

  lemma ClassifyPro()
    ensures ClassifyKey("Pro Monthly") == Pro
  {
    var lower := ToLower("Pro Monthly");
    assert lower[0] == 'p' && lower[1] == 'r' && lower[2] == 'o';
    assert lower[..3] == "pro";
    assert OccursAt(lower, "pro", 0);
  }

  lemma ClassifyBusiness()
    ensures ClassifyKey("Business") == Business
  {
    assert ToLower("Business") == "business";
    FirstCharMissing("business", "pro");
    FirstCharMissing("business", "free");
  }

  lemma ClassifyProWins()
    ensures ClassifyKey("Free PRO") == Pro
  {
    var lower := ToLower("Free PRO");
    assert lower[5] == 'p' && lower[6] == 'r' && lower[7] == 'o';
    assert lower[5..8] == "pro";
    assert OccursAt(lower, "pro", 5);
  }

  // -----------------------------------------------------------------------
  // One product of the sync, and the whole loop

  /** `product.description || ""`: a missing description is written as the empty string. */
  function DescriptionOrEmpty(d: Option<string>): (r: string)
    ensures d.Some? ==> r == d.value
    ensures r != "" ==> d == Some(r)
  {
    if d.Some? then d.value else ""
  }

  /** The plan document a product with a successfully filled price map is written as. */
  function PlanOf(product: StripeProduct, pm: PriceMap): Plan {
    Plan(ClassifyKey(product.name), product.id, product.name, DescriptionOrEmpty(product.description), pm.matrix)
  }

  /** What one iteration of the product loop does to the store. */
  datatype Upsert =
    | Skip                          // no recurring price: `continue`
    | Abort(error: Error)          // the iteration throws and the action stops
    | Patch(id: PlanId, plan: Plan) // updatePlanByStripeId on the one existing plan
    | Insert(plan: Plan)           // insertPlan

  /**
   * The write for a product whose price map was filled: patch the one plan
   * with its id, or insert one. It aborts exactly when the `.unique()` lookup
   * throws or the write fails validation.
   */
  function UpsertPlan(plans: map<PlanId, Plan>, product: StripeProduct, pm: PriceMap): (u: Upsert)
    ensures !u.Skip?
    ensures u.Abort? <==> |PlansWithStripeId(plans, product.id)| > 1 || pm.foreignCurrency
    ensures u.Insert? <==> PlansWithStripeId(plans, product.id) == {} && !pm.foreignCurrency
    ensures u.Patch? ==> PlansWithStripeId(plans, product.id) == {u.id} && !pm.foreignCurrency
    ensures u.Patch? || u.Insert? ==> u.plan.stripeId == product.id
  {
    match Unique(PlansWithStripeId(plans, product.id))
    case Many => Abort(NotUnique)
    case One(k) => if pm.foreignCurrency then Abort(SchemaMismatch) else Patch(k, PlanOf(product, pm))
    case NoMatch => if pm.foreignCurrency then Abort(SchemaMismatch) else Insert(PlanOf(product, pm))
  }

  /**
   * One iteration of the product loop, decided against the current `plans`
   * table: skipped exactly when the product has no recurring price, and
   * otherwise aborted by a bad interval, a duplicated plan or a foreign
   * currency, or written.
   */
  function UpsertOf(plans: map<PlanId, Plan>, product: StripeProduct, prices: seq<StripePrice>): (u: Upsert)
    ensures u.Skip? <==> RecurringPricesOf(prices, product.id) == []
    ensures u.Abort? ==> u.error == UnsupportedInterval || u.error == NotUnique || u.error == SchemaMismatch
    ensures u.Patch? || u.Insert? ==>
      && Fill(EmptyPriceMap, RecurringPricesOf(prices, product.id)).Ok?
      && u.plan == PlanOf(product, Fill(EmptyPriceMap, RecurringPricesOf(prices, product.id)).value)
  {
    var productPrices := RecurringPricesOf(prices, product.id);
    if |productPrices| == 0 then Skip
    else match Fill(EmptyPriceMap, productPrices)
      case Err(e) => Abort(e)
      case Ok(pm) => UpsertPlan(plans, product, pm)
  }

  /**
   * The store after one iteration: an aborted or skipped iteration writes
   * nothing, a written one writes only the plan at its id (and the counter
   * for an insert).
   */
  function ApplyUpsert(t: Tables, u: Upsert): (t': Tables)
    ensures t'.(plans := t.plans, nextId := t.nextId) == t
    ensures u.Skip? || u.Abort? ==> t' == t
    ensures u.Patch? ==> t'.plans == t.plans[u.id := u.plan] && t'.nextId == t.nextId
    ensures u.Insert? ==> t'.plans == t.plans[t.nextId := u.plan] && t'.nextId == t.nextId + 1
  {
    match u
    case Skip => t
    case Abort(_) => t
    case Patch(k, plan) => t.(plans := t.plans[k := plan])
    case Insert(plan) => t.(plans := t.plans[t.nextId := plan], nextId := t.nextId + 1)
  }

  /**
   * The product loop: the store after it and whether it threw. A throwing
   * iteration stops the loop, and the plans written before it stay written.
   */
  function SyncAll(t: Tables, products: seq<StripeProduct>, prices: seq<StripePrice>): (r: (Tables, Result<()>))
    ensures r.0.(plans := t.plans, nextId := t.nextId) == t
    ensures t.nextId <= r.0.nextId
    ensures r.1.Err? ==> r.1.error == UnsupportedInterval || r.1.error == NotUnique || r.1.error == SchemaMismatch
    decreases |products|
  {
    if products == [] then (t, Ok(()))
    else
      var u := UpsertOf(t.plans, products[0], prices);
      if u.Abort? then (t, Err(u.error))
      else SyncAll(ApplyUpsert(t, u), products[1..], prices)
  }

  /** No two plans share a Stripe product id. */
  ghost predicate DistinctStripeIds(plans: map<PlanId, Plan>) {
    forall j, k :: j in plans && k in plans && plans[j].stripeId == plans[k].stripeId ==> j == k
  }

  /** A product is skipped exactly when it has no recurring price. */
  lemma SkipIffNoRecurringPrice(plans: map<PlanId, Plan>, product: StripeProduct, prices: seq<StripePrice>)
    ensures UpsertOf(plans, product, prices).Skip? <==>
      forall p :: p in prices ==> !IsRecurringPriceOf(p, product.id)
  {
    var pp := RecurringPricesOf(prices, product.id);
    if |pp| != 0 {
      assert pp[0] in pp;
    }
  }

  /** The id a written iteration puts its plan at: the existing plan's, or the next fresh id. */
  function WrittenId(nextId: nat, u: Upsert): PlanId
    requires u.Patch? || u.Insert?
  {
    if u.Patch? then u.id else nextId
  }

  lemma UpsertPlanLeavesOne(plans: map<PlanId, Plan>, nextId: nat, product: StripeProduct, pm: PriceMap)
    requires forall k :: k in plans ==> k < nextId
    requires UpsertPlan(plans, product, pm).Patch? || UpsertPlan(plans, product, pm).Insert?
    ensures var u := UpsertPlan(plans, product, pm);
      var k := WrittenId(nextId, u);
      && u.plan == PlanOf(product, pm)
      && PlansWithStripeId(plans[k := u.plan], product.id) == {k}
      && (u.Patch? ==> PlansWithStripeId(plans, product.id) == {k})
      && (u.Insert? ==> PlansWithStripeId(plans, product.id) == {} && k !in plans)
  {
    var u := UpsertPlan(plans, product, pm);
    var k := WrittenId(nextId, u);
    var plans' := plans[k := u.plan];
    if u.Patch? {
      assert PlansWithStripeId(plans, product.id) == {k};
    } else {
      assert PlansWithStripeId(plans, product.id) == {};
    }
    assert PlansWithStripeId(plans', product.id) == {k};
  }

  /**
   * After a written iteration exactly one plan carries the product's id, and
   * it holds the product's key, name, description and price matrix: the one
   * existing plan is patched, and a new one is inserted only when none
   * existed. Every other plan is untouched.
   */
  lemma UpsertLeavesOnePlan(t: Tables, product: StripeProduct, prices: seq<StripePrice>)
    requires Consistent(t)
    requires UpsertOf(t.plans, product, prices).Patch? || UpsertOf(t.plans, product, prices).Insert?
    ensures var u := UpsertOf(t.plans, product, prices);
      var t' := ApplyUpsert(t, u);
      var k := WrittenId(t.nextId, u);
      && PlansWithStripeId(t'.plans, product.id) == {k}
      && t'.plans == t.plans[k := u.plan]
      && u.plan == PlanOf(product, Fill(EmptyPriceMap, RecurringPricesOf(prices, product.id)).value)
      && u.plan.key == ClassifyKey(product.name) && u.plan.name == product.name
      && u.plan.description == DescriptionOrEmpty(product.description)
      && (u.Patch? ==> PlansWithStripeId(t.plans, product.id) == {k})
      && (u.Insert? ==> PlansWithStripeId(t.plans, product.id) == {} && k !in t.plans)
  {
    var pm := Fill(EmptyPriceMap, RecurringPricesOf(prices, product.id)).value;
    UpsertPlanLeavesOne(t.plans, t.nextId, product, pm);
  }

  /** Every iteration keeps the store consistent: a patch reuses an id, an insert takes the next one. */
  lemma UpsertKeepsConsistent(t: Tables, product: StripeProduct, prices: seq<StripePrice>)
    requires Consistent(t)
    ensures Consistent(ApplyUpsert(t, UpsertOf(t.plans, product, prices)))
  {
    var u := UpsertOf(t.plans, product, prices);
    if u.Patch? || u.Insert? {
      UpsertLeavesOnePlan(t, product, prices);
    }
  }

  /** A written iteration keeps the Stripe product ids of the plans distinct, and the store consistent. */
  lemma UpsertKeepsDistinct(t: Tables, product: StripeProduct, prices: seq<StripePrice>)
    requires Consistent(t) && DistinctStripeIds(t.plans)
    ensures var t' := ApplyUpsert(t, UpsertOf(t.plans, product, prices));
      Consistent(t') && DistinctStripeIds(t'.plans)
  {
    var u := UpsertOf(t.plans, product, prices);
    if u.Patch? || u.Insert? {
      UpsertLeavesOnePlan(t, product, prices);
    }
  }

  /**
   * Syncing a product a second time with the same catalogue changes nothing:
   * the upsert finds the plan the first run wrote and patches it with the
   * same document.
   */
  lemma UpsertIdempotent(t: Tables, product: StripeProduct, prices: seq<StripePrice>)
    requires Consistent(t)
    ensures var t' := ApplyUpsert(t, UpsertOf(t.plans, product, prices));
      && ApplyUpsert(t', UpsertOf(t'.plans, product, prices)) == t'
      && UpsertOf(t'.plans, product, prices).Abort? == UpsertOf(t.plans, product, prices).Abort?
  {
    var u := UpsertOf(t.plans, product, prices);
    if u.Patch? || u.Insert? {
      var pm := Fill(EmptyPriceMap, RecurringPricesOf(prices, product.id)).value;
      UpsertPlanLeavesOne(t.plans, t.nextId, product, pm);
      var t' := ApplyUpsert(t, u);
      var k := WrittenId(t.nextId, u);
      assert t'.plans == t.plans[k := u.plan];
      assert UpsertPlan(t'.plans, product, pm) == Patch(k, u.plan);
      assert t'.plans[k := u.plan] == t'.plans;
    }
  }

  /**
   * The whole sync writes only the `plans` table and the id counter, keeps the
   * store consistent, and never creates two plans for one Stripe product.
   */
  lemma {:induction false} SyncAllKeepsDistinct(t: Tables, products: seq<StripeProduct>, prices: seq<StripePrice>)
    requires Consistent(t) && DistinctStripeIds(t.plans)
    ensures var t' := SyncAll(t, products, prices).0;
      && Consistent(t') && DistinctStripeIds(t'.plans)
      && t'.users == t.users && t'.subscriptions == t.subscriptions && t'.apps == t.apps
      && t'.authAccounts == t.authAccounts && t'.scheduled == t.scheduled
      && t.plans.Keys <= t'.plans.Keys && t.nextId <= t'.nextId
    decreases |products|
  {
    if products != [] {
      var u := UpsertOf(t.plans, products[0], prices);
      if !u.Abort? {
        UpsertKeepsDistinct(t, products[0], prices);
        SyncAllKeepsDistinct(ApplyUpsert(t, u), products[1..], prices);
      }
    }
  }

  /** The product is in sync with the store: its iteration would write nothing and not throw. */
  ghost predicate Synced(t: Tables, product: StripeProduct, prices: seq<StripePrice>) {
    var u := UpsertOf(t.plans, product, prices);
    !u.Abort? && ApplyUpsert(t, u) == t
  }

  /** The upsert of a product depends on the plans table only through the plans carrying its id. */
  lemma UpsertSeesOnlyItsPlans(plans1: map<PlanId, Plan>, plans2: map<PlanId, Plan>, product: StripeProduct, prices: seq<StripePrice>)
    requires PlansWithStripeId(plans1, product.id) == PlansWithStripeId(plans2, product.id)
    ensures UpsertOf(plans1, product, prices) == UpsertOf(plans2, product, prices)
  {
  }

  /** Writing a plan for another product at an id that held none of `pid`'s plans keeps `pid`'s index entry. */
  lemma WriteElsewhereKeepsIndex(plans: map<PlanId, Plan>, k: PlanId, plan: Plan, pid: string)
    requires plan.stripeId != pid && (k in plans ==> plans[k].stripeId != pid)
    ensures PlansWithStripeId(plans[k := plan], pid) == PlansWithStripeId(plans, pid)
  {
  }

  /** An iteration for one product leaves every other product's plan, and so its sync state, as it was. */
  lemma StepKeepsSynced(t: Tables, q: StripeProduct, p: StripeProduct, prices: seq<StripePrice>)
    requires Consistent(t) && q.id != p.id && Synced(t, p, prices)
    ensures Synced(ApplyUpsert(t, UpsertOf(t.plans, q, prices)), p, prices)
  {
    var u := UpsertOf(t.plans, q, prices);
    var t1 := ApplyUpsert(t, u);
    if u.Patch? || u.Insert? {
      UpsertLeavesOnePlan(t, q, prices);
      var k := WrittenId(t.nextId, u);
      assert t1.plans == t.plans[k := u.plan];
      assert k in PlansWithStripeId(t1.plans, q.id);
      assert u.plan.stripeId == q.id;
      WriteElsewhereKeepsIndex(t.plans, k, u.plan, p.id);
      UpsertSeesOnlyItsPlans(t1.plans, t.plans, p, prices);
      var up := UpsertOf(t.plans, p, prices);
      if up.Patch? {
        assert t.plans[up.id := up.plan] == t.plans;
        assert up.id in t.plans && t.plans[up.id] == up.plan;
        assert up.id in PlansWithStripeId(t.plans, p.id);
        assert up.id != k;
        assert t1.plans[up.id := up.plan] == t1.plans;
      }
    }
  }

  /** A run over products other than `p` keeps `p` in sync. */
  lemma {:induction false} RunKeepsSynced(t: Tables, products: seq<StripeProduct>, prices: seq<StripePrice>, p: StripeProduct)
    requires Consistent(t) && Synced(t, p, prices)
    requires forall j :: 0 <= j < |products| ==> products[j].id != p.id
    ensures Synced(SyncAll(t, products, prices).0, p, prices)
    decreases |products|
  {
    if products != [] {
      var u := UpsertOf(t.plans, products[0], prices);
      if !u.Abort? {
        StepKeepsSynced(t, products[0], p, prices);
        UpsertKeepsConsistent(t, products[0], prices);
        RunKeepsSynced(ApplyUpsert(t, u), products[1..], prices, p);
      }
    }
  }

  /** A completed run leaves every product it visited in sync. */
  lemma {:induction false} RunSyncsAll(t: Tables, products: seq<StripeProduct>, prices: seq<StripePrice>)
    requires Consistent(t)
    requires forall j, k :: 0 <= j < k < |products| ==> products[j].id != products[k].id
    requires SyncAll(t, products, prices).1.Ok?
    ensures forall j :: 0 <= j < |products| ==> Synced(SyncAll(t, products, prices).0, products[j], prices)
    decreases |products|
  {
    if products != [] {
      var u := UpsertOf(t.plans, products[0], prices);
      var t1 := ApplyUpsert(t, u);
      UpsertIdempotent(t, products[0], prices);
      UpsertKeepsConsistent(t, products[0], prices);
      RunKeepsSynced(t1, products[1..], prices, products[0]);
      RunSyncsAll(t1, products[1..], prices);
      forall j | 1 <= j < |products|
        ensures Synced(SyncAll(t, products, prices).0, products[j], prices)
      {
        assert products[j] == products[1..][j - 1];
      }
    }
  }

  /** A run over products that are all in sync writes nothing and completes. */
  lemma {:induction false} SyncedRunChangesNothing(t: Tables, products: seq<StripeProduct>, prices: seq<StripePrice>)
    requires forall j :: 0 <= j < |products| ==> Synced(t, products[j], prices)
    ensures SyncAll(t, products, prices) == (t, Ok(()))
    decreases |products|
  {
    if products != [] {
      assert Synced(t, products[0], prices);
      forall j | 0 <= j < |products[1..]|
        ensures Synced(t, products[1..][j], prices)
      {
        assert products[1..][j] == products[j + 1];
      }
      SyncedRunChangesNothing(t, products[1..], prices);
    }
  }

  /**
   * Syncing again with the same catalogue after a completed sync changes
   * nothing: every product already has its one plan, holding the same
   * document, so no plan is duplicated or altered.
   */
  lemma SyncIdempotent(t: Tables, products: seq<StripeProduct>, prices: seq<StripePrice>)
    requires Consistent(t)
    requires forall j, k :: 0 <= j < k < |products| ==> products[j].id != products[k].id
    requires SyncAll(t, products, prices).1.Ok?
    ensures var t' := SyncAll(t, products, prices).0;
      SyncAll(t', products, prices) == (t', Ok(()))
  {
    RunSyncsAll(t, products, prices);
    SyncedRunChangesNothing(SyncAll(t, products, prices).0, products, prices);
  }
}
